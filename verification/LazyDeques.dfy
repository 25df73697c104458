/** The lazily created deque under the wait queues: no deque exists until the first push. */
module LazyDeques {
  import opened Options

  class LazyDeque<A> {
    var deque: Option<seq<A>>

    ghost function Items(): seq<A>
      reads this
    {
      if deque.None? then [] else deque.value
    }

    constructor ()
      ensures Items() == []
    {
      deque := None;
    }

    method PushBack(value: A)
      modifies this
      ensures Items() == old(Items()) + [value]
    {
      if deque.None? {
        deque := Some([]);
      }
      deque := Some(deque.value + [value]);
    }

    method IsEmpty() returns (empty: bool)
      ensures empty <==> Items() == []
    {
      empty := deque.None? || deque.value == [];
    }

    method Front() returns (value: A)
      requires Items() != []
      ensures value == Items()[0]
    {
      value := deque.value[0];
    }

    method PopFront()
      requires Items() != []
      modifies this
      ensures Items() == old(Items())[1..]
    {
      deque := Some(deque.value[1..]);
    }

    method Set(index: nat, value: A)
      requires index < |Items()|
      modifies this
      ensures Items() == old(Items())[index := value]
    {
      deque := Some(deque.value[index := value]);
    }
  }
}
