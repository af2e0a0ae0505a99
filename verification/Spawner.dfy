// The spawner: keeps enough creations in flight to meet the newest request.
module Spawner {
  import opened Types

  /** Sending and DrainSending hold the item the spawner is blocked offering on `nextch`. */
  datatype SpawnerPc = Selecting | Sending(id: Id) | DrainSelect | DrainSending(id: Id) | Closed

  datatype SpawnerState = SpawnerState(pc: SpawnerPc, pending: int, needed: int)

  function NewSpawner(): SpawnerState { SpawnerState(Selecting, 0, 0) }

  function Max(a: int, b: int): int { if a < b then b else a }

  /** The top of the request loop: start creations until `pending` reaches `needed`. */
  function Fill(s: SpawnerState): SpawnerState {
    s.(pending := Max(s.pending, s.needed))
  }

  /** How many creations that starts. */
  function Launched(s: SpawnerState): nat {
    Fill(s).pending - s.pending
  }

  predicate AtSelect(s: SpawnerState) {
    s.pc.Selecting? || (s.pc.DrainSelect? && s.pending > 0)
  }

  predicate Offering(s: SpawnerState) {
    s.pc.Sending? || s.pc.DrainSending?
  }

  predicate Stopping(s: SpawnerState) {
    s.pc.DrainSelect? || s.pc.DrainSending? || s.pc.Closed?
  }

  /** A created item arrives: the spawner now offers it. */
  function Receive(s: SpawnerState, id: Id): SpawnerState
    requires AtSelect(s)
  {
    if s.pc.Selecting? then
      SpawnerState(Sending(id), s.pending - 1, if s.needed > 0 then s.needed - 1 else s.needed)
    else
      s.(pc := DrainSending(id), pending := s.pending - 1)
  }

  /** The item has been taken; before its next select the request loop fills again. */
  function Sent(s: SpawnerState): SpawnerState
    requires Offering(s)
  {
    s.(pc := if s.pc.Sending? then Selecting else DrainSelect)
  }

  // ---------------------------------------------------------------- the goroutine itself

  /** What a creation goroutine sends back. */
  datatype SpawnResult = Item(id: Id) | Failure

  /** What the request loop can receive. */
  datatype SpawnerInput = Request(n: int) | RequestsClosed | Result(r: SpawnResult)

  /** The items among some results, in order. */
  function ItemsOf(rs: seq<SpawnResult>): seq<Id> {
    if rs == [] then []
    else ItemsOf(rs[..|rs| - 1]) + if rs[|rs| - 1].Item? then [rs[|rs| - 1].id] else []
  }

  /** The results among some inputs, in order. */
  function ResultsOf(xs: seq<SpawnerInput>): seq<SpawnResult> {
    if xs == [] then []
    else ResultsOf(xs[..|xs| - 1]) + if xs[|xs| - 1].Result? then [xs[|xs| - 1].r] else []
  }

  /** One turn of the request loop, from select to select; a received item is offered and taken in between. */
  function Turn(s: SpawnerState, x: SpawnerInput): SpawnerState
    requires s.pc.Selecting?
  {
    match x
    case Request(n) => Fill(s.(needed := n))
    case RequestsClosed => s.(pc := DrainSelect)
    case Result(Item(id)) => Fill(Sent(Receive(s, id)))
    case Result(Failure) => Fill(s.(pending := s.pending - 1))
  }

  /** Many turns. Only the last may be the close. */
  function Turns(s: SpawnerState, xs: seq<SpawnerInput>): (t: SpawnerState)
    requires s.pc.Selecting? && forall k :: 0 <= k < |xs| - 1 ==> !xs[k].RequestsClosed?
    ensures t.pc.Selecting? <==> xs == [] || !xs[|xs| - 1].RequestsClosed?
  {
    if xs == [] then s else Turn(Turns(s, xs[..|xs| - 1]), xs[|xs| - 1])
  }

  /** However requests, failures and successes mix, the request loop is never short of the target it is working on. */
  lemma {:induction false} NeverShort(s: SpawnerState, xs: seq<SpawnerInput>)
    requires s.pc.Selecting? && s.pending >= s.needed
    requires forall k :: 0 <= k < |xs| ==> !xs[k].RequestsClosed?
    ensures Turns(s, xs).pending >= Turns(s, xs).needed
  {
    if xs != [] {
      NeverShort(s, xs[..|xs| - 1]);
    }
  }

  /** Once the newest request has been read, older ones no longer matter: the loop is aiming at exactly that. */
  lemma NewestRequestRules(s: SpawnerState, xs: seq<SpawnerInput>, n: int)
    requires s.pc.Selecting? && forall k :: 0 <= k < |xs| ==> !xs[k].RequestsClosed?
    ensures Turns(s, xs + [Request(n)]).needed == n
    ensures Turns(s, xs + [Request(n)]).pending == Max(Turns(s, xs).pending, n)
  {
    assert (xs + [Request(n)])[..|xs|] == xs;
  }

  /** A target less some of what it asked for, but not below zero. */
  function Less(target: int, got: nat): int {
    if target <= 0 then target else if target < got then 0 else target - got
  }

  predicate NoRequests(xs: seq<SpawnerInput>) {
    forall k :: 0 <= k < |xs| ==> !xs[k].Request? && !xs[k].RequestsClosed?
  }

  /** Only items received count against the target: failed creations do not. */
  lemma {:induction false} TargetLeft(s: SpawnerState, xs: seq<SpawnerInput>)
    requires s.pc.Selecting? && NoRequests(xs)
    ensures Turns(s, xs).needed == Less(s.needed, |ItemsOf(ResultsOf(xs))|)
  {
    if xs != [] {
      var before, x := xs[..|xs| - 1], xs[|xs| - 1];
      TargetLeft(s, before);
      ResultsAppend(before, x);
      assert xs == before + [x];
    }
  }

  lemma {:induction false} TurnsAppend(s: SpawnerState, xs: seq<SpawnerInput>, ys: seq<SpawnerInput>)
    requires s.pc.Selecting? && (forall k :: 0 <= k < |xs| ==> !xs[k].RequestsClosed?)
    requires forall k :: 0 <= k < |ys| - 1 ==> !ys[k].RequestsClosed?
    ensures forall k :: 0 <= k < |xs + ys| - 1 ==> !(xs + ys)[k].RequestsClosed?
    ensures Turns(s, xs + ys) == Turns(Turns(s, xs), ys)
  {
    if ys == [] {
      assert xs + ys == xs;
    } else {
      TurnsAppend(s, xs, ys[..|ys| - 1]);
      assert (xs + ys)[..|xs + ys| - 1] == xs + ys[..|ys| - 1];
    }
  }

  /** The target is always the newest request less the items received since. */
  lemma TargetExactly(s: SpawnerState, older: seq<SpawnerInput>, n: int, since: seq<SpawnerInput>)
    requires s.pc.Selecting? && NoRequests(since)
    requires forall k :: 0 <= k < |older| ==> !older[k].RequestsClosed?
    ensures forall k :: 0 <= k < |older + [Request(n)] + since| ==> !(older + [Request(n)] + since)[k].RequestsClosed?
    ensures Turns(s, older + [Request(n)] + since).needed == Less(n, |ItemsOf(ResultsOf(since))|)
  {
    NewestRequestRules(s, older, n);
    TurnsAppend(s, older + [Request(n)], since);
    TargetLeft(Turns(s, older + [Request(n)]), since);
  }

  /** A failed creation is made again if it is still wanted: the target stays, and so does what is in flight
      unless there was more of it than the target asks for. */
  lemma FailureIsRetried(s: SpawnerState, xs: seq<SpawnerInput>)
    requires s.pc.Selecting? && s.pending >= s.needed && forall k :: 0 <= k < |xs| ==> !xs[k].RequestsClosed?
    ensures var t, u := Turns(s, xs), Turns(s, xs + [Result(Failure)]);
      && u.needed == t.needed
      && u.pending == if t.pending > t.needed then t.pending - 1 else t.pending
  {
    NeverShort(s, xs);
    assert (xs + [Result(Failure)])[..|xs|] == xs;
  }

  class PiSpawner {
    var pc: SpawnerPc
    var pending: int
    var needed: int
    var launched: nat   // creations ever started
    var sent: seq<Id>   // items ever sent on nextch

    ghost function View(): SpawnerState
      reads this
    {
      SpawnerState(pc, pending, needed)
    }

    constructor ()
      ensures View() == NewSpawner() && launched == 0 && sent == []
    {
      pc, pending, needed, launched, sent := Selecting, 0, 0, 0, [];
    }

    method FillUp()
      modifies `pending, `launched
      ensures View() == Fill(old(View()))
      ensures launched - old(launched) == pending - old(pending)
    {
      while pending < needed
        invariant old(pending) <= pending <= Max(old(pending), needed)
        invariant launched - old(launched) == pending - old(pending)
      {
        launched := launched + 1;
        pending := pending + 1;
      }
    }

    /** One arm of the request loop's select, up to the next select. */
    method TakeInput(x: SpawnerInput)
      requires pc.Selecting?
      modifies this
      ensures View() == Turn(old(View()), x)
      ensures sent == old(sent) + if x.Result? && x.r.Item? then [x.r.id] else []
      ensures launched - old(launched) == pending - old(pending) + if x.Result? then 1 else 0
      ensures x.Request? ==> needed == x.n
      ensures x.Result? ==> needed == (if x.r.Item? then Less(old(needed), 1) else old(needed))
      ensures x.RequestsClosed? <==> pc.DrainSelect?
      ensures !x.RequestsClosed? ==> pending == Max(old(pending) - (if x.Result? then 1 else 0), needed)
    {
      match x {
        case Request(n) =>
          needed := n;
          FillUp();
        case RequestsClosed =>
          pc := DrainSelect;
        case Result(r) =>
          pending := pending - 1;
          if r.Item? {
            if needed > 0 {
              needed := needed - 1;
            }
            sent := sent + [r.id];
          }
          FillUp();
      }
    }

    /** Runs until the request channel is closed, or the inputs give out. The ledger: creations started less
        results received is the change in `pending`. */
    method FillRequests(inputs: seq<SpawnerInput>) returns (used: nat)
      requires pc.Selecting?
      modifies this
      ensures used <= |inputs|
      ensures forall k :: 0 <= k < used - 1 ==> !inputs[k].RequestsClosed?
      ensures used < |inputs| ==> used > 0 && inputs[used - 1].RequestsClosed?
      ensures View() == Turns(Fill(old(View())), inputs[..used])
      ensures sent == old(sent) + ItemsOf(ResultsOf(inputs[..used]))
      ensures launched - old(launched) == pending - old(pending) + |ResultsOf(inputs[..used])|
    {
      hide Turn, Turns, ItemsOf, ResultsOf;
      used := 0;
      FillUp();
      NoTurns(View());
      while used < |inputs| && pc.Selecting?
        invariant used <= |inputs|
        invariant forall k :: 0 <= k < used - 1 ==> !inputs[k].RequestsClosed?
        invariant pc.Selecting? || (used > 0 && inputs[used - 1].RequestsClosed?)
        invariant View() == Turns(Fill(old(View())), inputs[..used])
        invariant sent == old(sent) + ItemsOf(ResultsOf(inputs[..used]))
        invariant launched - old(launched) == pending - old(pending) + |ResultsOf(inputs[..used])|
      {
        TakeInput(inputs[used]);
        ResultsAppend(inputs[..used], inputs[used]);
        OneTurn(Fill(old(View())), inputs[..used], inputs[used]);
        used := used + 1;
        assert inputs[..used] == inputs[..used - 1] + [inputs[used - 1]];
      }
    }

    /** Receives exactly the results still pending (if they all come), passes the items on, and only then
        closes `nextch`. */
    method DrainResults(results: seq<SpawnResult>) returns (used: nat)
      requires pc.DrainSelect? && pending >= 0
      modifies this
      ensures used <= |results| && used <= old(pending) && pending == old(pending) - used
      ensures |results| >= old(pending) ==> used == old(pending)
      ensures pc.Closed? <==> pending == 0
      ensures sent == old(sent) + ItemsOf(results[..used])
      ensures launched == old(launched) && needed == old(needed)
    {
      used := 0;
      while pending > 0 && used < |results|
        invariant used <= |results| && 0 <= pending == old(pending) - used && pc.DrainSelect?
        invariant sent == old(sent) + ItemsOf(results[..used])
        invariant launched == old(launched) && needed == old(needed)
      {
        pending := pending - 1;
        if results[used].Item? {
          sent := sent + [results[used].id];
        }
        used := used + 1;
        assert results[..used][..used - 1] == results[..used - 1];
      }
      if pending <= 0 {
        pc := Closed;
      }
    }
  }

  lemma NoTurns(s: SpawnerState)
    requires s.pc.Selecting?
    ensures Turns(s, []) == s && ItemsOf(ResultsOf([])) == [] && ResultsOf([]) == []
  {
  }

  lemma OneTurn(s: SpawnerState, xs: seq<SpawnerInput>, x: SpawnerInput)
    requires s.pc.Selecting? && forall k :: 0 <= k < |xs| ==> !xs[k].RequestsClosed?
    ensures Turns(s, xs + [x]) == Turn(Turns(s, xs), x)
  {
    assert (xs + [x])[..|xs|] == xs;
  }

  lemma ResultsAppend(xs: seq<SpawnerInput>, x: SpawnerInput)
    ensures ResultsOf(xs + [x]) == if x.Result? then ResultsOf(xs) + [x.r] else ResultsOf(xs)
    ensures x.Result? ==> ItemsOf(ResultsOf(xs + [x])) == ItemsOf(ResultsOf(xs)) + if x.r.Item? then [x.r.id] else []
  {
    assert (xs + [x])[..|xs|] == xs;
    if x.Result? {
      assert (ResultsOf(xs) + [x.r])[..|ResultsOf(xs)|] == ResultsOf(xs);
    }
  }
}
