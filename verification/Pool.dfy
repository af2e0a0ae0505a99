// The pool's own goroutine: which items it tracks and what it does with each message.
module Pools {
  import opened Types

  /** Joining, Putting and Requesting are the blocking sends inside the running loop's arms.
      The two Top positions are the heads of the drain loops, before items are killed again. */
  datatype PoolPc =
    | Initializing
    | Running
    | Joining(id: Id)
    | Putting(id: Id)
    | Requesting(count: int)
    | DrainSpawnerTop
    | DrainSpawner
    | DrainItemsTop
    | DrainItems
    | Done

  datatype PoolState = PoolState(pc: PoolPc, items: set<Id>)

  function NewPool(): PoolState { PoolState(Initializing, {}) }

  /** The pool is at a select that receives from `events`. */
  predicate Receiving(p: PoolState) {
    p.pc.Running? || p.pc.DrainSpawner? || p.pc.DrainItems?
  }

  predicate Shut(p: PoolState) {
    p.pc.DrainSpawnerTop? || p.pc.DrainSpawner? || p.pc.DrainItemsTop? || p.pc.DrainItems? || p.pc.Done?
  }

  /** After a message, the drain loops go back to their head and the running loop to its select. */
  function Again(p: PoolState): PoolState {
    match p.pc
    case DrainSpawner => p.(pc := DrainSpawnerTop)
    case DrainItems => p.(pc := DrainItemsTop)
    case _ => p.(pc := Running)
  }

  /** Ask the spawner for whatever is missing, if anything is. */
  function Prime(size: nat, p: PoolState): PoolState {
    if |p.items| < size then p.(pc := Requesting(size - |p.items|)) else p.(pc := Running)
  }

  function OnNext(p: PoolState, id: Id): PoolState {
    if p.pc.Running? then PoolState(Joining(id), p.items + {id}) else Again(p)
  }

  function OnReady(p: PoolState, id: Id): PoolState {
    if p.pc.Running? && id in p.items then p.(pc := Putting(id)) else Again(p)
  }

  function OnExit(size: nat, p: PoolState, id: Id): PoolState {
    var rest := p.(items := p.items - {id});
    if p.pc.Running? then Prime(size, rest) else Again(rest)
  }

  /** The head of a drain loop. */
  function OnTop(p: PoolState): PoolState {
    if p.pc.DrainSpawnerTop? then p.(pc := DrainSpawner)
    else if p.items == {} then p.(pc := Done)
    else p.(pc := DrainItems)
  }
}
