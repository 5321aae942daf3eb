/**
 The three stack operations of the Go program, as functions on the contents of
 the slice. A slice's contents are a `seq<int>` whose last element is the top of
 the stack. `Pop` on an empty slice evaluates `tmp[len(tmp)-1]`, i.e. `tmp[-1]`,
 which the Go runtime turns into an index-out-of-range panic; that panic is an
 explicit outcome here rather than a precondition.
 */
module StackOps {

  /** The Go runtime error for an index outside `0 <= index < length`. */
  datatype Panic = IndexOutOfRange(index: int, length: nat)

  /** Either the operation completed with a value, or the program panicked. */
  datatype Outcome<T> = Done(value: T) | Panicked(panic: Panic)

  /** What `pop` produces: the value it returns and the slice it leaves behind. */
  datatype Popped = Popped(last: int, rest: seq<int>)

  /** The top of a non-empty stack. */
  function Top(s: seq<int>): (r: int)
    requires |s| > 0
  {
    s[|s| - 1]
  }

  /** `push`: appends the pushed value to the end of the slice. */
  function Push(s: seq<int>, pushed: int): (r: seq<int>)
    ensures |r| == |s| + 1
    ensures Top(r) == pushed
    ensures forall i :: 0 <= i < |s| ==> r[i] == s[i]
  {
    s + [pushed]
  }

  /** `pop`: read the last element, then reslice to drop it. */
  function Pop(s: seq<int>): (r: Outcome<Popped>)
    ensures r.Panicked? <==> |s| == 0
    ensures r.Panicked? ==> r.panic == IndexOutOfRange(-1, 0)
    ensures r.Done? ==> r.value.last == Top(s) && |r.value.rest| == |s| - 1
    ensures r.Done? ==> forall i :: 0 <= i < |r.value.rest| ==> r.value.rest[i] == s[i]
  {
    if |s| == 0 then Panicked(IndexOutOfRange(|s| - 1, |s|))
    else Done(Popped(s[|s| - 1], s[..|s| - 1]))
  }

  /** `add`: pops the top, pops the value below it, and pushes their sum. */
  function Add(s: seq<int>): (r: Outcome<seq<int>>)
    ensures r.Panicked? <==> |s| < 2
    ensures r.Done? ==> |r.value| == |s| - 1 && Top(r.value) == Top(s) + s[|s| - 2]
  {
    match Pop(s)
    case Panicked(p) => Panicked(p)
    case Done(Popped(lhs, s1)) =>
      match Pop(s1)
      case Panicked(p) => Panicked(p)
      case Done(Popped(rhs, s2)) => Done(Push(s2, lhs + rhs))
  }

  /** Popping right after a push returns the pushed value and restores the stack. */
  lemma PushThenPop(s: seq<int>, v: int)
    ensures Pop(Push(s, v)) == Done(Popped(v, s))
  {
  }

  /** Pushing back what was popped restores the stack. */
  lemma PopThenPush(s: seq<int>)
    requires |s| > 0
    ensures Pop(s).Done? && Push(Pop(s).value.rest, Pop(s).value.last) == s
  {
  }

  /**
   `add` panics exactly when fewer than two values are on the stack (at the
   first `pop` on an empty stack, at the second on a one-element stack);
   otherwise it replaces the top two by their sum and leaves everything below
   them alone.
   */
  lemma AddEffect(s: seq<int>)
    ensures Add(s).Panicked? <==> |s| < 2
    ensures |s| < 2 ==> Add(s) == Panicked(IndexOutOfRange(-1, 0))
    ensures |s| >= 2 ==> Add(s) == Done(s[..|s| - 2] + [s[|s| - 1] + s[|s| - 2]])
  {
    if |s| >= 2 {
      assert s[..|s| - 1][..|s| - 2] == s[..|s| - 2];
    }
  }

  /** `add` only looks at the top two values: stacking anything beneath does not change its effect. */
  lemma AddIsLocal(below: seq<int>, t: seq<int>)
    requires |t| >= 2
    ensures Add(t).Done?
    ensures Add(below + t) == Done(below + Add(t).value)
  {
    AddEffect(t);
    AddEffect(below + t);
    var n := |below + t|;
    assert (below + t)[..n - 2] == below + t[..|t| - 2];
    var sum := t[|t| - 1] + t[|t| - 2];
    assert (below + t)[n - 1] + (below + t)[n - 2] == sum;
    assert (below + t[..|t| - 2]) + [sum] == below + (t[..|t| - 2] + [sum]);
  }
}
