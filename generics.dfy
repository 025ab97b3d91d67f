/** `Pair<T, U>` and `Container<T>` of rust/sample2.rs. */
module Generics {

  /** An immutable pair; `swap` consumes it and returns a new one. */
  datatype Pair<T, U> = Pair(first: T, second: U) {

    /** `get_first` */
    function GetFirst(): (x: T)
      ensures x == first
    {
      first
    }

    /** `get_second` */
    function GetSecond(): (y: U)
      ensures y == second
    {
      second
    }

    /** `swap`: the components change places. */
    function Swap(): (r: Pair<U, T>)
      ensures r.GetFirst() == GetSecond() && r.GetSecond() == GetFirst()
    {
      Pair(second, first)
    }
  }

  /** Swapping twice gives back the original pair. */
  lemma SwapInvolution<T, U>(p: Pair<T, U>)
    ensures p.Swap().Swap() == p
  {
  }

  /** A box holding one value that `set` replaces in place. */
  class Container<T> {
    var value: T

    /** `Container::new` */
    constructor (value: T)
      ensures this.value == value
    {
      this.value := value;
    }

    /** `get`: reads the held value without changing it. */
    method Get() returns (v: T)
      ensures v == value
    {
      v := value;
    }

    /** `set`: replaces the held value; a later `get` sees the new one. */
    method Set(v: T)
      modifies this
      ensures value == v
    {
      value := v;
    }

    /** `into_inner`: hands out the held value. */
    method IntoInner() returns (v: T)
      ensures v == value
    {
      v := value;
    }
  }
}
