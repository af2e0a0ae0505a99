// Vocabulary shared by every component of the pool model.
module Types {

  /** A Docker container id. Docker never reuses one; the model only compares them. */
  type Id = nat

  /** Whoever calls CheckoutWith and Return on a pool. */
  type Client = nat

  datatype Option<+T> = None | Some(value: T)

  /** What a pool's configuration decides: how many items to maintain and which lifecycle actions exist. */
  datatype Config = Config(size: nat, hasHealthcheck: bool, hasInitialize: bool, hasReset: bool)

  /** 1 if the condition holds, 0 otherwise: turns a condition into a token count. */
  function Bit(b: bool): nat { if b then 1 else 0 }

  /** One more, and one fewer, occurrence of an element. */
  function Add<T>(m: multiset<T>, x: T): (r: multiset<T>)
    ensures |r| == |m| + 1
  {
    m + multiset{x}
  }

  function Remove<T>(m: multiset<T>, x: T): (r: multiset<T>)
    requires x in m
    ensures |r| == |m| - 1
  {
    assert m == m - multiset{x} + multiset{x};
    m - multiset{x}
  }
}
