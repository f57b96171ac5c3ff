/** The singly linked list of chunks that the allocator keeps its free and
    used memory in.  `nodes` is the data of the nodes reachable from the head,
    in list order; `size` is the counter the list keeps beside them.  A node
    walk is a loop over a cursor: the cursor is the index of the node it
    points at, and |nodes| stands for the null pointer past the last node. */
module ChunkLists {
  import opened Chunks

  /** The node that `get` and `remove` reach for a position.  For a positive
      position the walk stops on the node before it and takes the next one;
      for a negative position the walk does not move, so node 1 is taken. */
  function Target(position: int): (r: nat)
    ensures position >= 0 ==> r == position
    ensures position < 0 ==> r == 1
  {
    if position < 0 then 1 else position
  }

  class LinkedList {
    var nodes: seq<Chunk>
    var size: int

    /** The counter always equals the number of nodes. */
    ghost predicate Valid()
      reads this
    {
      size == |nodes|
    }

    constructor ()
      ensures Valid() && nodes == []
    {
      nodes := [];
      size := 0;
    }

    function GetSize(): (r: int)
      reads this
      requires Valid()
      ensures r == |nodes|
    {
      size
    }

    /** Adds `value` after the last node. */
    method Append(value: Chunk)
      requires Valid()
      modifies this
      ensures Valid() && nodes == old(nodes) + [value]
    {
      size := size + 1;
      if nodes == [] {
        nodes := [value];
      } else {
        var temp := 0;
        while temp + 1 < |nodes|
          invariant 0 <= temp < |nodes|
        {
          temp := temp + 1;
        }
        nodes := nodes[..temp + 1] + [value];
      }
    }

    /** Links `value` in so that it becomes node `position`.  A position
        outside 0..size walks past the last node and dereferences null, so
        callers keep to that range. */
    method Insert(position: int, value: Chunk)
      requires Valid() && 0 <= position <= |nodes|
      modifies this
      ensures Valid() && nodes == old(nodes)[..position] + [value] + old(nodes)[position..]
    {
      if position == 0 {
        nodes := [value] + nodes;
      } else {
        var counter := 0;
        var temp := 0;
        var previous := -1;
        while counter != position
          invariant 0 <= counter <= position && temp == counter
          invariant counter == position ==> previous == position - 1
        {
          if counter == position - 1 {
            previous := temp;
          }
          temp := temp + 1;
          counter := counter + 1;
        }
        nodes := nodes[..previous + 1] + [value] + nodes[temp..];
      }
      size := size + 1;
    }

    /** Unlinks node Target(position) if it exists and reports whether it did. */
    method Remove(position: int) returns (removed: bool)
      requires Valid()
      modifies this
      ensures Valid()
      ensures removed <==> Target(position) < |old(nodes)|
      ensures removed ==> nodes == old(nodes)[..Target(position)] + old(nodes)[Target(position) + 1..]
      ensures !removed ==> nodes == old(nodes)
    {
      if nodes == [] {
        return false;
      }
      if position == 0 {
        size := size - 1;
        nodes := nodes[1..];
        return true;
      }
      var temp := WalkTo(position);
      if temp == |nodes| || temp + 1 == |nodes| {
        return false;
      }
      size := size - 1;
      nodes := nodes[..temp + 1] + nodes[temp + 2..];
      return true;
    }

    /** The walk shared by `get` and `remove`: it advances towards the node
        before Target(position) and stops early at the null past the end. */
    method WalkTo(position: int) returns (temp: int)
      requires Valid() && position != 0
      ensures temp == if Target(position) <= |nodes| then Target(position) - 1 else |nodes|
    {
      temp := 0;
      var i := 0;
      while temp < |nodes| && i < position - 1
        invariant 0 <= temp <= |nodes| && temp == i
        invariant position >= 1 ==> i <= position - 1
        invariant position < 1 ==> i == 0
      {
        temp := temp + 1;
        i := i + 1;
      }
    }

    /** The chunk held by node Target(position). */
    method Get(position: int) returns (chunk: Chunk)
      requires Valid() && Target(position) < |nodes|
      ensures chunk == nodes[Target(position)]
    {
      if position == 0 {
        return nodes[0];
      }
      var temp := WalkTo(position);
      return nodes[temp + 1];
    }

    /** Stores `value` through the reference that `get(position)` returns:
        only node Target(position) changes. */
    method Overwrite(position: int, value: Chunk)
      requires Valid() && Target(position) < |nodes|
      modifies this
      ensures Valid() && nodes == old(nodes)[Target(position) := value]
    {
      if position == 0 {
        nodes := nodes[0 := value];
      } else {
        var temp := WalkTo(position);
        nodes := nodes[temp + 1 := value];
      }
    }
  }
}
