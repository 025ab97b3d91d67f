/** The iteration protocol of rust/sample2.rs: `RangeIterator` over the
    half-open range [start, end) of `i32`, its `next`, and the trait's
    default `count`, which drives `next` until it yields `None`. */
module Iteration {
  import opened Ints
  import opened Variants

  class RangeIterator {
    var current: i32
    var end: i32

    /** True once `next` can only yield `None`. */
    predicate Exhausted()
      reads this
    {
      current >= end
    }

    /** How many more values `next` will yield. */
    function Remaining(): (k: nat)
      reads this
      ensures k == 0 <==> Exhausted()
    {
      if current < end then end - current else 0
    }

    /** `RangeIterator::new(start, end)` */
    constructor (start: i32, end: i32)
      ensures current == start && this.end == end
    {
      current := start;
      this.end := end;
    }

    /** `next`: yields the current value and advances by one while
        `current < end`; otherwise yields `None` and changes nothing.
        An exhausted iterator stays exhausted. */
    method Next() returns (r: Option<i32>)
      modifies this
      ensures end == old(end)
      ensures old(current) < end ==> r == Some(old(current)) && current == old(current) + 1
      ensures old(current) >= end ==> r == None && current == old(current)
      ensures r.IsNone() <==> Exhausted() && old(Exhausted())
      ensures Remaining() == if r.IsSome() then old(Remaining()) - 1 else 0
    {
      if current < end {
        var value := current;
        current := current + 1;
        r := Some(value);
      } else {
        r := None;
      }
    }

    /** `count`: the number of values still to come, i.e. max(0, end - current)
        on entry, which for a fresh iterator is max(0, end - start).
        It consumes the iterator: afterwards it is exhausted. */
    method Count() returns (n: nat)
      modifies this
      ensures n == if old(current) < old(end) then old(end) - old(current) else 0
      ensures Exhausted() && end == old(end)
    {
      n := 0;
      while true
        invariant end == old(end)
        invariant n + Remaining() == old(Remaining())
        decreases Remaining()
      {
        var item := Next();
        if item.IsNone() {
          break;
        }
        n := n + 1;
      }
    }
  }

  /** `RangeIterator::new(0, 5).count() == 5` and `new(3, 3).count() == 0`;
      after the first `None`, `next` keeps returning `None`. */
  method CountExamples()
  {
    var it := new RangeIterator(0, 5);
    var n := it.Count();
    assert n == 5;
    var r := it.Next();
    assert r == None;
    r := it.Next();
    assert r == None;
    var empty := new RangeIterator(3, 3);
    n := empty.Count();
    assert n == 0;
  }
}
