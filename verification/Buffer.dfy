// The ready buffer: an unbounded queue between the pool and checkouts.
module Buffer {
  import opened Types

  /** `ended`: the goroutine has left its loop. `accepted` and `handed` record what has gone in and out so far. */
  datatype BufferState = BufferState(
    queue: seq<Id>, inClosed: bool, outClosed: bool, ended: bool, accepted: seq<Id>, handed: seq<Id>)

  function NewBuffer(): BufferState { BufferState([], false, false, false, [], []) }

  function Put(b: BufferState, id: Id): BufferState {
    b.(queue := b.queue + [id], accepted := b.accepted + [id])
  }

  function Take(b: BufferState): BufferState
    requires b.queue != []
  {
    b.(queue := b.queue[1..], handed := b.handed + [b.queue[0]])
  }

  /** What the buffer's select can do: take an item in, see its input closed, or hand one out. The last
      is offered only while the queue is not empty; otherwise its channel is nil and the turn is void. */
  datatype BufferInput = In(id: Id) | InClosed | Out

  /** The items put in, in order. */
  function Ins(xs: seq<BufferInput>): seq<Id> {
    if xs == [] then []
    else Ins(xs[..|xs| - 1]) + if xs[|xs| - 1].In? then [xs[|xs| - 1].id] else []
  }

  /** One turn of the loop. */
  function Turn(b: BufferState, x: BufferInput): BufferState {
    match x
    case In(id) => Put(b, id)
    case InClosed => b.(outClosed := true, ended := true)
    case Out => if b.queue == [] then b else Take(b)
  }

  function Turns(b: BufferState, xs: seq<BufferInput>): BufferState {
    if xs == [] then b else Turn(Turns(b, xs[..|xs| - 1]), xs[|xs| - 1])
  }

  /** First in, first out: what has gone out, followed by what waits, is what was there followed by what went in. */
  lemma {:induction false} TurnsAreFifo(b: BufferState, xs: seq<BufferInput>)
    requires b.accepted == b.handed + b.queue
    ensures var t := Turns(b, xs); t.accepted == t.handed + t.queue && t.accepted == b.accepted + Ins(xs)
    ensures b.handed <= Turns(b, xs).handed
  {
    if xs != [] {
      hide Turn;
      TurnsAreFifo(b, xs[..|xs| - 1]);
      TurnIsFifo(Turns(b, xs[..|xs| - 1]), xs[|xs| - 1]);
    }
  }

  /** An offer taken up hands out the oldest item that is left. */
  lemma OutHandsOutOldest(b: BufferState, xs: seq<BufferInput>)
    requires b.accepted == b.handed + b.queue
    requires |Turns(b, xs).handed| < |Turns(b, xs).accepted|
    ensures var t := Turns(b, xs); Turns(b, xs + [Out]).handed == t.handed + [t.accepted[|t.handed|]]
  {
    TurnsAreFifo(b, xs);
    assert (xs + [Out])[..|xs|] == xs;
    TurnIsFifo(Turns(b, xs), Out);
  }

  lemma TurnIsFifo(b: BufferState, x: BufferInput)
    requires b.accepted == b.handed + b.queue
    ensures Turn(b, x).accepted == Turn(b, x).handed + Turn(b, x).queue
    ensures Turn(b, x).accepted == b.accepted + if x.In? then [x.id] else []
    ensures b.handed <= Turn(b, x).handed
    ensures x.Out? && b.queue != [] ==> Turn(b, x).handed == b.handed + [b.queue[0]]
    ensures Turn(b, x).outClosed <==> b.outClosed || x.InClosed?
  {
    if x.Out? && b.queue != [] {
      assert b.queue == [b.queue[0]] + b.queue[1..];
    }
  }

  class PiBuffer {
    var buf: seq<Id>
    var outClosed: bool
    ghost var accepted: seq<Id>
    ghost var handed: seq<Id>

    ghost function View(): BufferState
      reads this
    {
      BufferState(buf, false, outClosed, outClosed, accepted, handed)
    }

    constructor ()
      ensures View() == NewBuffer()
    {
      buf, outClosed, accepted, handed := [], false, [], [];
    }

    /** Runs until its input is closed or the script gives out, and hands nothing out after that. */
    method Run(script: seq<BufferInput>) returns (out: seq<Id>, used: nat)
      requires !outClosed
      modifies this
      ensures used <= |script| && View() == Turns(old(View()), script[..used])
      ensures handed == old(handed) + out
      ensures outClosed <==> used > 0 && script[used - 1].InClosed?
      ensures forall k :: 0 <= k < used - 1 ==> !script[k].InClosed?
      ensures !outClosed ==> used == |script|
    {
      out, used := [], 0;
      while used < |script| && !outClosed
        invariant used <= |script| && View() == Turns(old(View()), script[..used])
        invariant handed == old(handed) + out
        invariant outClosed <==> used > 0 && script[used - 1].InClosed?
        invariant forall k :: 0 <= k < used - 1 ==> !script[k].InClosed?
      {
        assert script[..used + 1][..used] == script[..used];
        match script[used] {
          case In(id) =>
            buf, accepted := buf + [id], accepted + [id];
          case InClosed =>
            outClosed := true;
          case Out =>
            if |buf| > 0 {
              out, handed := out + [buf[0]], handed + [buf[0]];
              buf := buf[1..];
            }
        }
        used := used + 1;
      }
    }
  }
}
