/**
 The stack of the Go program as it lives in memory: a slice variable that
 `push`, `pop` and `add` update through a pointer. A slice is a backing array
 together with a length; its capacity is the length of the backing array.
 `pop` reslices (same backing array, one shorter) and `push` appends (writes in
 place when there is spare capacity, otherwise copies into a larger array).
 */
module SliceStack {
  import StackOps

  /** The slice variable `stack` of `main`, which the operations receive as `*[]int`. */
  class IntSlice {
    var data: array<int>  // the backing array; cap(stack) == data.Length
    var len: nat          // len(stack)

    ghost predicate Valid()
      reads this
    {
      len <= data.Length
    }

    /** The elements the slice holds, bottom of the stack first. */
    ghost function Contents(): seq<int>
      reads this, data
      requires Valid()
    {
      data[..len]
    }

    /** Making an empty slice of length and capacity zero. */
    constructor Make()
      ensures Valid() && fresh(data)
      ensures Contents() == [] && data.Length == 0
    {
      data := new int[0];
      len := 0;
    }

    /** `push`: appends the pushed value, in the same backing array when it has room. */
    method Push(pushed: int)
      requires Valid()
      modifies this, data
      ensures Valid()
      ensures Contents() == StackOps.Push(old(Contents()), pushed)
      ensures old(len) < old(data.Length) ==> data == old(data)
      ensures data == old(data) || (fresh(data) && data.Length > old(data.Length))
    {
      if len == data.Length {
        // no spare capacity: append allocates a larger backing array and copies
        var grown := new int[if data.Length == 0 then 1 else 2 * data.Length];
        var i := 0;
        while i < len
          modifies grown
          invariant 0 <= i <= len <= data.Length < grown.Length
          invariant forall k :: 0 <= k < i ==> grown[k] == data[k]
        {
          grown[i] := data[i];
          i := i + 1;
        }
        data := grown;
      }
      data[len] := pushed;
      len := len + 1;
    }

    /** `pop`: returns the last element and shortens the slice by one, keeping its backing array. */
    method Pop() returns (last: int)
      requires Valid() && len > 0
      modifies this
      ensures Valid() && data == old(data)
      ensures StackOps.Pop(old(Contents())) == StackOps.Done(StackOps.Popped(last, Contents()))
    {
      last := data[len - 1];
      len := len - 1;
      assert old(Contents())[..len] == Contents();
    }

    /** `add`: pops the top, pops the value below it, and pushes their sum. */
    method Add()
      requires Valid() && len >= 2
      modifies this, data
      ensures Valid() && data == old(data)
      ensures StackOps.Add(old(Contents())) == StackOps.Done(Contents())
    {
      var lhs := Pop();
      var rhs := Pop();
      Push(lhs + rhs);
    }
  }

  /** `main` without its console output: returns the final contents of the stack. */
  method RunMain() returns (final: seq<int>)
    ensures final == [78]
  {
    var stack := new IntSlice.Make();
    stack.Push(42);
    stack.Push(36);
    stack.Add();
    StackOps.AddEffect([42, 36]);
    final := stack.data[..stack.len];
  }
}
