/**
 The in-memory worker of ring.go: a circular buffer that doubles when full and
 halves at or below half occupancy, down to two slots.

 `Fifo` is what the buffer stands for. `Put`, `Take` and `CloseIfEmpty` are its
 operations; the queue protocol uses them, and the class `Ring` refines them.

 `stopFlag` is an atomic that other goroutines set without holding the ring's
 lock, so each load of it is a parameter: the value that load returned.
 */
module RingBuffer {
  import opened Wrappers

  datatype Fifo<T> = Fifo(items: seq<T>, exitClosed: bool)

  datatype PutOutcome = Accepted | QueueShutdown | MaxCapacity

  datatype TakeOutcome<T> = Taken(task: T) | NoTaskInQueue | QueueHasBeenClosed

  function Put<T>(f: Fifo<T>, capacity: nat, stopped: bool, task: T): (r: (Fifo<T>, PutOutcome))
  {
    if stopped then (f, QueueShutdown)
    else if capacity > 0 && |f.items| >= capacity then (f, MaxCapacity)
    else (f.(items := f.items + [task]), Accepted)
  }

  /** `stoppedEarly` and `stoppedLate` are the two loads of the stop flag made under the lock. */
  function Take<T>(f: Fifo<T>, stoppedEarly: bool, stoppedLate: bool): (r: (Fifo<T>, TakeOutcome<T>))
  {
    if stoppedEarly && f.items == [] then (f.(exitClosed := true), QueueHasBeenClosed)
    else if f.items == [] then (f, NoTaskInQueue)
    else
      var rest := f.items[1..];
      (Fifo(rest, f.exitClosed || (stoppedLate && rest == [])), Taken(f.items[0]))
  }

  /** The locked part of stopIntake. */
  function CloseIfEmpty<T>(f: Fifo<T>): (r: Fifo<T>)
  {
    if f.items == [] then f.(exitClosed := true) else f
  }

  /** How far slot `j` lies behind `head`, walking forward with wraparound. */
  function Distance(head: nat, j: nat, len: nat): (d: nat)
    requires head < len && j < len
    ensures d < len
  {
    if head <= j then j - head else j + len - head
  }

  /** `slots` holds `items` in order from `head`, and nil everywhere else. */
  ghost predicate Holds<T>(slots: seq<Option<T>>, head: nat, items: seq<T>)
  {
    && head < |slots|
    && |items| <= |slots|
    && forall j :: 0 <= j < |slots| ==>
         slots[j] == if Distance(head, j, |slots|) < |items|
                     then Some(items[Distance(head, j, |slots|)]) else None
  }

  ghost predicate PowerOfTwo(n: nat)
  {
    n == 1 || (n >= 2 && n % 2 == 0 && PowerOfTwo(n / 2))
  }

  lemma Successor(i: nat, len: nat)
    requires i < len
    ensures (i + 1) % len == if i + 1 == len then 0 else i + 1
  {
    if i + 1 < len { assert (i + 1) % len == i + 1; }
  }

  /** Go's copy: as many elements as both sides have room for. */
  method CopyInto<T>(dst: array<T>, at: nat, src: seq<T>)
    requires at <= dst.Length
    modifies dst
    ensures forall j :: 0 <= j < dst.Length ==>
      dst[j] == if at <= j < at + |src| then src[j - at] else old(dst[j])
  {
    var n := if |src| <= dst.Length - at then |src| else dst.Length - at;
    for i := 0 to n
      invariant forall j :: 0 <= j < dst.Length ==>
        dst[j] == if at <= j < at + i then src[j - at] else old(dst[j])
    {
      dst[at + i] := src[i];
    }
  }

  class Ring<T> {
    var taskQueue: array<Option<T>>
    const capacity: nat
    var count: nat
    var head: nat
    var tail: nat
    var exitClosed: bool
    ghost var items: seq<T>

    /** Everything but the occupancy bound, which resize is called to restore. */
    ghost predicate Shaped()
      reads this, taskQueue
    {
      && Holds(taskQueue[..], head, items)
      && count == |items|
      && tail < taskQueue.Length
      && tail == (if head + count < taskQueue.Length then head + count
                  else head + count - taskQueue.Length)
    }

    /** Two slots, or more than half full; always a power of two. */
    ghost predicate Sized()
      reads this, taskQueue
    {
      && taskQueue.Length >= 2
      && PowerOfTwo(taskQueue.Length)
      && (taskQueue.Length == 2 || 2 * count > taskQueue.Length)
    }

    ghost predicate Valid()
      reads this, taskQueue
    {
      Shaped() && Sized() && (capacity > 0 ==> count <= capacity)
    }

    ghost function Model(): (f: Fifo<T>)
      reads this
    {
      Fifo(items, exitClosed)
    }

    constructor (capacity: nat)
      ensures Valid() && fresh(taskQueue)
      ensures this.capacity == capacity && Model() == Fifo([], false)
    {
      this.capacity := capacity;
      taskQueue := new Option<T>[2](_ => None);
      count, head, tail, exitClosed := 0, 0, 0, false;
      items := [];
      new;
      assert PowerOfTwo(2) by { assert PowerOfTwo(1); }
    }

    /**
     The slice `nodes[len-head:]` is in range exactly when the tail part fits,
     which is what the second precondition says.
     */
    method Resize(n: nat)
      requires Shaped() && count <= n && n >= 1
      requires tail <= head ==> taskQueue.Length - head <= n
      modifies this`taskQueue, this`head, this`tail
      ensures Shaped() && fresh(taskQueue) && taskQueue.Length == n && head == 0
    {
      var nodes := new Option<T>[n](_ => None);
      if head < tail {
        CopyInto(nodes, 0, taskQueue[head..tail]);
      } else {
        CopyInto(nodes, 0, taskQueue[head..]);
        CopyInto(nodes, taskQueue.Length - head, taskQueue[..tail]);
      }
      ResizeHolds(taskQueue[..], head, tail, items, nodes[..]);
      tail := count % n;
      head := 0;
      taskQueue := nodes;
      Remainder(count, n);
    }

    method Queue(task: T, stopped: bool) returns (r: PutOutcome)
      requires Valid()
      modifies this`taskQueue, this`count, this`head, this`tail, this`items, taskQueue
      ensures Valid()
      ensures taskQueue == old(taskQueue) || fresh(taskQueue)
      ensures (Model(), r) == Put(old(Model()), capacity, stopped, task)
      ensures r.Accepted? <==> !stopped && (capacity == 0 || |old(items)| < capacity)
      ensures items == old(items) + if r.Accepted? then [task] else []
    {
      if stopped { return QueueShutdown; }
      if capacity > 0 && count >= capacity { return MaxCapacity; }
      if count == taskQueue.Length {
        assert PowerOfTwo(count * 2);
        Resize(count * 2);
      }
      Push(task);
      r := Accepted;
    }

    /** Fills the tail slot and advances tail with wraparound. */
    method Push(task: T)
      requires Shaped() && count < taskQueue.Length
      modifies this`count, this`tail, this`items, taskQueue
      ensures Shaped() && taskQueue == old(taskQueue) && count == old(count) + 1
      ensures items == old(items) + [task]
    {
      Successor(tail, taskQueue.Length);
      ghost var before := taskQueue[..];
      taskQueue[tail] := Some(task);
      assert taskQueue[..] == before[tail := Some(task)];
      PutHolds(before, head, items, tail, task);
      items := items + [task];
      tail := (tail + 1) % taskQueue.Length;
      count := count + 1;
    }

    /** Clears the head slot and advances head with wraparound. */
    method Pop() returns (data: T)
      requires Shaped() && count > 0
      modifies this`count, this`head, this`items, taskQueue
      ensures Shaped() && taskQueue == old(taskQueue) && count == old(count) - 1
      ensures data == old(items)[0] && items == old(items)[1..]
    {
      ghost var before := taskQueue[..];
      TakeHolds(before, head, items);
      Successor(head, taskQueue.Length);
      data := taskQueue[head].value;
      taskQueue[head] := None;
      assert taskQueue[..] == before[head := None];
      head := (head + 1) % taskQueue.Length;
      count := count - 1;
      items := items[1..];
    }

    method Request(stoppedEarly: bool, stoppedLate: bool) returns (r: TakeOutcome<T>)
      requires Valid()
      modifies this`taskQueue, this`count, this`head, this`tail, this`items, this`exitClosed, taskQueue
      ensures Valid()
      ensures taskQueue == old(taskQueue) || fresh(taskQueue)
      ensures (Model(), r) == Take(old(Model()), stoppedEarly, stoppedLate)
      ensures if old(items) == [] then items == [] && (r.QueueHasBeenClosed? <==> stoppedEarly)
              else r.Taken? && old(items) == [r.task] + items
    {
      if stoppedEarly && count == 0 {
        exitClosed := true;
        return QueueHasBeenClosed;
      }
      if count == 0 { return NoTaskInQueue; }
      var data := Pop();
      if stoppedLate && count == 0 {
        exitClosed := true;
      }
      Shrink();
      r := Taken(data);
    }

    /** The last step of Request: restores the occupancy bound after a dequeue. */
    method Shrink()
      requires Shaped() && PowerOfTwo(taskQueue.Length) && taskQueue.Length >= 2
      requires taskQueue.Length == 2 || 2 * (count + 1) > taskQueue.Length
      modifies this`taskQueue, this`head, this`tail
      ensures Shaped() && Sized()
      ensures taskQueue == old(taskQueue) || fresh(taskQueue)
    {
      var n := taskQueue.Length / 2;
      if n >= 2 && count <= n {
        Resize(n);
      }
    }

    method StopSection()
      requires Valid()
      modifies this`exitClosed
      ensures Valid() && Model() == CloseIfEmpty(old(Model()))
      ensures items == old(items) && (exitClosed <==> old(exitClosed) || items == [])
    {
      if count == 0 { exitClosed := true; }
    }
  }

  lemma Remainder(i: nat, n: nat)
    requires i <= n && n >= 1
    ensures i % n == if i == n then 0 else i
  {
  }

  /** Either copying case of resize lays the live window out from slot zero. */
  lemma ResizeHolds<T>(slots: seq<Option<T>>, head: nat, tail: nat, items: seq<T>, nodes: seq<Option<T>>)
    requires Holds(slots, head, items) && |items| <= |nodes| && 1 <= |nodes|
    requires tail < |slots|
    requires tail == if head + |items| < |slots| then head + |items| else head + |items| - |slots|
    requires head < tail ==> forall j :: 0 <= j < |nodes| ==>
      nodes[j] == if j < tail - head then slots[head + j] else None
    requires tail <= head ==> |slots| - head <= |nodes| && forall j :: 0 <= j < |nodes| ==>
      nodes[j] == if |slots| - head <= j < |slots| - head + tail then slots[j - (|slots| - head)]
                  else if j < |slots| - head then slots[head + j] else None
    ensures Holds(nodes, 0, items)
  {
    forall j | 0 <= j < |nodes|
      ensures nodes[j] == if j < |items| then Some(items[j]) else None
    {
      if head < tail {
        if j < tail - head { assert Distance(head, head + j, |slots|) == j; }
      } else if j < |slots| - head {
        assert Distance(head, head + j, |slots|) == j;
      } else if j < |slots| - head + tail {
        assert Distance(head, j - (|slots| - head), |slots|) == j;
      }
    }
  }

  lemma PutHolds<T>(slots: seq<Option<T>>, head: nat, items: seq<T>, tail: nat, task: T)
    requires Holds(slots, head, items) && |items| < |slots|
    requires tail == if head + |items| < |slots| then head + |items| else head + |items| - |slots|
    ensures Holds(slots[tail := Some(task)], head, items + [task])
  {
    assert Distance(head, tail, |slots|) == |items|;
  }

  lemma TakeHolds<T>(slots: seq<Option<T>>, head: nat, items: seq<T>)
    requires Holds(slots, head, items) && items != []
    ensures slots[head] == Some(items[0])
    ensures Holds(slots[head := None], if head + 1 == |slots| then 0 else head + 1, items[1..])
  {
    assert Distance(head, head, |slots|) == 0;
  }
}
