/**
  The fixed-capacity LIFO buffer of byte payloads (stack/stack.go).
  The mutex of the source is not modelled: each method is one atomic step.
*/
module BoundedStack {
  import opened Types

  /** The number of payloads at which IsFull reports true. */
  const Capacity: nat := 100

  class Stack {
    /** The payloads, bottom first; the top of the stack is the last element. */
    var stack: seq<Payload>

    constructor ()
      ensures stack == []
    {
      stack := [];
    }

    method IsFull() returns (full: bool)
      ensures full <==> |stack| == Capacity
    {
      full := |stack| == Capacity;
    }

    method IsEmpty() returns (empty: bool)
      ensures empty <==> stack == []
    {
      empty := |stack| == 0;
    }

    /** Appends without any capacity check: the caller decides whether to wait. */
    method PushToStack(bytesToAdd: Payload)
      modifies this
      ensures stack == old(stack) + [bytesToAdd]
    {
      stack := stack + [bytesToAdd];
    }

    /** Removes and returns the top payload; the source indexes out of range on an empty stack. */
    method PopFromStack() returns (response: Payload)
      requires stack != []
      modifies this
      ensures old(stack) == stack + [response]
      ensures response == Top(old(stack)) && stack == Below(old(stack))
    {
      response := stack[|stack| - 1];
      stack := stack[..|stack| - 1];
    }
  }

  // ---------------------------------------------------------------------------
  // The same operations on values, for stating properties of several calls.

  function Top(s: seq<Payload>): Payload
    requires s != []
  {
    s[|s| - 1]
  }

  function Below(s: seq<Payload>): seq<Payload>
    requires s != []
  {
    s[..|s| - 1]
  }

  /** A push followed by a pop gives back the pushed bytes and the previous stack. */
  lemma PushPopRoundTrip(s: seq<Payload>, p: Payload)
    ensures Top(s + [p]) == p && Below(s + [p]) == s
  {
  }

  /** Push A, push B: the first pop gives B, the second gives A, and the stack is as before. */
  lemma LastInFirstOut(s: seq<Payload>, a: Payload, b: Payload)
    ensures Top(s + [a] + [b]) == b
    ensures Top(Below(s + [a] + [b])) == a
    ensures Below(Below(s + [a] + [b])) == s
  {
    assert Below(s + [a] + [b]) == s + [a];
  }

  /** The payloads returned by n successive pops, in the order they are returned. */
  function Pops(s: seq<Payload>, n: nat): (popped: seq<Payload>)
    requires n <= |s|
    ensures |popped| == n
  {
    if n == 0 then [] else [Top(s)] + Pops(Below(s), n - 1)
  }

  function Reversed(xs: seq<Payload>): (r: seq<Payload>)
    ensures |r| == |xs|
  {
    if xs == [] then [] else Reversed(xs[1..]) + [xs[0]]
  }

  /** Pushing xs and then popping |xs| times returns xs in reverse order. */
  lemma {:induction false} PopsAfterPushesReverse(s: seq<Payload>, xs: seq<Payload>)
    ensures Pops(s + xs, |xs|) == Reversed(xs)
  {
    if xs != [] {
      var init := xs[..|xs| - 1];
      var last := xs[|xs| - 1];
      assert xs == init + [last];
      assert s + xs == (s + init) + [last];
      PopsAfterPushesReverse(s, init);
      ReversedSnoc(init, last);
    }
  }

  lemma {:induction false} ReversedSnoc(xs: seq<Payload>, x: Payload)
    ensures Reversed(xs + [x]) == [x] + Reversed(xs)
  {
    if xs != [] {
      assert (xs + [x])[1..] == xs[1..] + [x];
      ReversedSnoc(xs[1..], x);
    } else {
      assert [x][1..] == [];
    }
  }

  // ---------------------------------------------------------------------------
  // The capacity bound under guarded pushes.

  datatype StackOp = PushOp(payload: Payload) | PopOp

  /**
    One step as the server performs it: a push when IsFull holds does not
    mutate (it waits instead), and a pop on an empty stack does not mutate.
  */
  function Step(s: seq<Payload>, op: StackOp): seq<Payload>
  {
    match op
    case PushOp(p) => if |s| == Capacity then s else s + [p]
    case PopOp => if s == [] then s else Below(s)
  }

  function Run(s: seq<Payload>, ops: seq<StackOp>): seq<Payload>
    decreases |ops|
  {
    if ops == [] then s else Run(Step(s, ops[0]), ops[1..])
  }

  /** When every push is guarded by IsFull, a stack that starts within capacity stays within it. */
  lemma {:induction false} GuardedRunStaysBounded(s: seq<Payload>, ops: seq<StackOp>)
    requires |s| <= Capacity
    ensures |Run(s, ops)| <= Capacity
    decreases |ops|
  {
    if ops != [] {
      GuardedRunStaysBounded(Step(s, ops[0]), ops[1..]);
    }
  }

  /**
    IsFull tests equality, not "at least": a stack already past capacity is not
    full, so the guard no longer stops pushes.
  */
  lemma GuardDoesNotCatchOverflow(s: seq<Payload>, p: Payload)
    requires |s| == Capacity + 1
    ensures |Step(s, PushOp(p))| == Capacity + 2
  {
  }
}
