# gostack: an integer stack on a Go slice

The program keeps a stack of `int`s in a Go slice and passes the slice to its
operations by pointer (`*[]int`), so every operation updates the caller's slice
in place:

- `push` appends a value (`append`, which writes into spare capacity or moves
  the elements to a larger backing array);
- `pop` reads the last element and reslices to drop it; on an empty slice the
  index `len-1` is `-1` and the Go runtime panics;
- `add` pops `lhs` (the top), pops `rhs` (the one below) and pushes `lhs+rhs`;
- `main` starts from `make([]int, 0)`, pushes 42 and 36, and adds.

The model has two layers.

- `StackOps` (stack_ops.dfy) gives the meaning of the three operations as
  functions on the slice's contents (`seq<int>`, top of the stack last). The
  panic of `pop` on an empty slice is an explicit outcome,
  `Panicked(IndexOutOfRange(-1, 0))`, so `add` on a stack of fewer than two
  values is modelled as well. Lemmas give the round trips between push and
  pop, the exact effect and failure condition of `add`, and that `add` only
  touches the top two values.
- `SliceStack` (slice_stack.dfy) is the slice as it lives in memory: class
  `IntSlice` holds a backing array `data` (the slice's capacity is
  `data.Length`) and a length `len`. Its methods `Push`, `Pop` and `Add` update
  the object in place. Each one's postcondition ties the new contents to the
  `StackOps` function of the old contents and says what happens to the backing
  array. `pop` keeps the backing array. `add` writes its result into the slot
  freed by the pops. `push` copies into a larger array only when the slice is
  full. `RunMain` replays `main` and returns the final contents.

## Model

| member | source | states |
|---|---|---|
| StackOps.Push | main.go:27-29 | the result is one longer, its top is the pushed value, and every earlier element is unchanged |
| StackOps.Pop | main.go:20-25 | panics with index -1 out of range exactly when the stack is empty; otherwise returns the last element and a remainder one shorter that agrees with the old stack on every position below the top |
| StackOps.PushThenPop | main.go:20-29 | popping right after pushing `v` returns `v` and restores the original stack |
| StackOps.PopThenPush | main.go:20-29 | pushing back what `pop` returned rebuilds the stack it was popped from |
| StackOps.Add | main.go:14-18 | `add` panics exactly when fewer than two values are on the stack; otherwise the stack is one shorter and its new top is the sum of the old top two |
| StackOps.AddEffect | main.go:14-18 | `add` panics exactly when fewer than two values are on the stack, with pop's index-out-of-range panic; otherwise the stack becomes the old one without its top two values, followed by their sum |
| StackOps.AddIsLocal | main.go:14-18 | `add` on a stack `below + t` with at least two values in `t` changes only the `t` part, exactly as `add` on `t` alone |
| SliceStack.IntSlice.Make | main.go:6 | `make([]int, 0)`: an empty slice on a new backing array of capacity 0 |
| SliceStack.IntSlice.Push | main.go:27-29 | the new contents are `StackOps.Push` of the old; with spare capacity it writes into the same backing array; otherwise it uses a new, larger one |
| SliceStack.IntSlice.Pop | main.go:20-25 | on a non-empty slice returns `last` with `StackOps.Pop(old contents) == Done(Popped(last, new contents))`, keeping the backing array |
| SliceStack.IntSlice.Add | main.go:14-18 | on a slice of at least two values the new contents are what `StackOps.Add` yields on the old ones, on the same backing array |
| SliceStack.RunMain | main.go:5-12 | starting from an empty slice, push 42, push 36, add leaves exactly `[78]` |

## Left out

- The `fmt.Println` in `main` (main.go:11) is console output; `RunMain` returns the contents instead of printing them.
- SliceStack.IntSlice.Pop: requires a non-empty slice instead of panicking. A Go panic aborts the program, and the panic case is modelled by `StackOps.Pop`.
- SliceStack.IntSlice.Add: requires at least two values for the same reason. The panic case is modelled by `StackOps.AddEffect`. In Go, a one-element stack is already emptied by the first `pop` before the second one panics. That intermediate state is not modelled, because nothing can observe it after the panic.
- The sum `lhs+rhs` (main.go:17) wraps around at the platform's `int` width, which is 32 or 64 bits depending on the implementation; the model uses unbounded integers.
- The exact capacity Go's `append` picks when it grows a slice (rounding to allocation size classes, slower growth for large slices) is not modelled. `Push` grows a full slice from capacity 0 to 1 and otherwise doubles it. Capacity never affects the contents.
- The stack-language interpreter exercised by main_test.go (`if`, `def`, user functions) is not modelled: main.go does not define `Parse`, `Value`, `Num`, `Block` or `Op`; only main_test.go refers to them.
