/** The bounds-checked singly linked list template.  `chain` is the data of
    the nodes reachable from the head, in order, and `size` is the unsigned
    counter kept beside them.  A thrown std::runtime_error is a failure value
    carrying its message.  Node walks are loops over a cursor index. */
module CheckedLists {

  const INDEX_ERROR := "Node index exceeds size of list"

  const INT_MAX := 0x7fff_ffff

  /** A C++ `int`. */
  type Int32 = x: int | -0x8000_0000 <= x <= INT_MAX

  /** The value an `int` index takes when it is compared with the unsigned
      counter: negative values wrap to 2^32 + i. */
  function AsUnsigned(i: Int32): (r: nat)
    ensures r < 0x1_0000_0000
    ensures i >= 0 ==> r == i
    ensures i < 0 ==> r > INT_MAX
  {
    if i < 0 then i + 0x1_0000_0000 else i
  }

  /** A value, or the message of the exception thrown instead. */
  datatype Result<T> = Ok(value: T) | Thrown(message: string)

  /** Normal completion, or the message of the exception thrown. */
  datatype Outcome = Done | Raised(message: string)

  class LinkedList<T> {
    var chain: seq<T>
    var size: nat

    /** The counter equals the number of nodes, and every position is an `int`. */
    ghost predicate Valid()
      reads this
    {
      size == |chain| && size <= INT_MAX
    }

    constructor ()
      ensures Valid() && chain == []
    {
      chain := [];
      size := 0;
    }

    /** The head is null exactly when the counter is zero. */
    function IsEmpty(): (r: bool)
      reads this
      requires Valid()
      ensures r <==> size == 0
    {
      chain == []
    }

    function GetSize(): (r: nat)
      reads this
      requires Valid()
      ensures r == |chain|
    {
      size
    }

    /** Walks `steps` nodes from the head. */
    method Walk(steps: int) returns (current: nat)
      requires Valid() && 0 <= steps < |chain|
      ensures current == steps
    {
      current := 0;
      for i := 0 to steps
        invariant current == i
      {
        current := current + 1;
      }
    }

    /** Element `index`; an index at or past the end, and so every negative
        index, throws. */
    method Get(index: Int32) returns (r: Result<T>)
      requires Valid()
      ensures 0 <= index < |chain| ==> r == Ok(chain[index])
      ensures !(0 <= index < |chain|) ==> r == Thrown(INDEX_ERROR)
    {
      if AsUnsigned(index) >= size {
        return Thrown(INDEX_ERROR);
      }
      if index == 0 {
        return Ok(chain[0]);
      }
      var current := Walk(index - 1);
      return Ok(chain[current + 1]);
    }

    /** The same check and walk as Get.  The code hands back a mutable
        reference to the element; that reference is not modelled, and the
        element's value is returned instead. */
    method At(index: Int32) returns (r: Result<T>)
      requires Valid()
      ensures 0 <= index < |chain| ==> r == Ok(chain[index])
      ensures !(0 <= index < |chain|) ==> r == Thrown(INDEX_ERROR)
    {
      r := Get(index);
    }

    /** Puts `value` after the last node. */
    method Append(value: T)
      requires Valid() && size < INT_MAX
      modifies this
      ensures Valid() && chain == old(chain) + [value]
    {
      if IsEmpty() {
        chain := [value];
      } else {
        var current := Walk(|chain| - 1);
        chain := chain[..current + 1] + [value];
      }
      size := size + 1;
    }

    /** Puts `value` before the head. */
    method Prepend(value: T)
      requires Valid() && size < INT_MAX
      modifies this
      ensures Valid() && chain == [value] + old(chain)
    {
      chain := [value] + chain;
      size := size + 1;
    }

    /** Makes `value` element `index`; an index past the end, or negative, throws. */
    method Insert(index: Int32, value: T) returns (o: Outcome)
      requires Valid() && size < INT_MAX
      modifies this
      ensures Valid()
      ensures o == if 0 <= index <= old(size) then Done else Raised(INDEX_ERROR)
      ensures o.Done? ==> chain == old(chain)[..index] + [value] + old(chain)[index..]
      ensures o.Raised? ==> chain == old(chain)
    {
      if AsUnsigned(index) > size {
        return Raised(INDEX_ERROR);
      }
      if index == 0 {
        Prepend(value);
      } else if index == size {
        Append(value);
        assert chain == old(chain)[..index] + [value] + old(chain)[index..];
      } else {
        var current := 0;
        var previous := -1;
        for i := 0 to index
          invariant current == i
          invariant i == index ==> previous == index - 1
        {
          if i == index - 1 {
            previous := current;
          }
          current := current + 1;
        }
        chain := chain[..previous + 1] + [value] + chain[current..];
        size := size + 1;
      }
      o := Done;
    }

    /** Replaces element `index` with `value`; an out-of-range index throws. */
    method Set(index: Int32, value: T) returns (o: Outcome)
      requires Valid()
      modifies this
      ensures Valid()
      ensures o == if 0 <= index < old(size) then Done else Raised(INDEX_ERROR)
      ensures o.Done? ==> chain == old(chain)[index := value]
      ensures o.Raised? ==> chain == old(chain)
    {
      if AsUnsigned(index) >= size {
        return Raised(INDEX_ERROR);
      }
      if index == 0 {
        chain := chain[0 := value];
      } else {
        var current := Walk(index);
        chain := chain[current := value];
      }
      o := Done;
    }

    /** Unlinks element `index`; an empty list or an out-of-range index throws. */
    method Remove(index: Int32) returns (o: Outcome)
      requires Valid()
      modifies this
      ensures Valid()
      ensures o == if 0 <= index < old(size) then Done else Raised(INDEX_ERROR)
      ensures o.Done? ==> chain == old(chain)[..index] + old(chain)[index + 1..]
      ensures o.Raised? ==> chain == old(chain)
    {
      if IsEmpty() || AsUnsigned(index) >= size {
        return Raised(INDEX_ERROR);
      }
      var current := 0;
      if index == 0 {
        chain := chain[1..];
      } else {
        var previous := -1;
        for i := 1 to index + 1
          invariant current == i - 1 && previous == i - 2
        {
          previous := current;
          current := current + 1;
        }
        chain := chain[..previous + 1] + chain[current + 1..];
      }
      size := size - 1;
      o := Done;
    }
  }
}
