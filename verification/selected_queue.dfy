/** The bounded queue between the select thread and the crawl threads (selected_queue.cpp). */
module SelectedQueues {
  import opened Options

  datatype QueueType = CPQ | COQ | IPQ | IOQ

  datatype SQItem = SQItem(url: string, failCount: int, dnsCount: int, lastCrawlTime: int, whichQueue: QueueType)

  /** The fields of the queue as a value; `count` is kept beside the deque. */
  datatype State = State(queue: seq<SQItem>, count: int, size: int)

  datatype Op = Push(item: SQItem) | Pop | Clear

  /** What an operation reports: whether a push was accepted, and what a pop returned. */
  datatype Outcome = Accepted(item: SQItem) | Refused | Popped(item: SQItem) | Empty | Cleared

  function Init(size: int): State {
    State([], 0, size)
  }

  function Result(s: State, op: Op): Outcome {
    match op
    case Push(item) => if s.count == s.size then Refused else Accepted(item)
    case Pop => if s.queue == [] then Empty else Outcome.Popped(s.queue[0])
    case Clear => Cleared
  }

  function Apply(s: State, op: Op): State {
    match Result(s, op)
    case Accepted(item) => State(s.queue + [item], s.count + 1, s.size)
    case Popped(_) => State(s.queue[1..], s.count - 1, s.size)
    case Cleared => State([], 0, s.size)
    case _ => s
  }

  class SelectedQueue {
    var queue: seq<SQItem>
    var count: int
    var size: int

    ghost function Value(): State
      reads this
    {
      State(queue, count, size)
    }

    /** The counter agrees with the deque. */
    ghost predicate Valid()
      reads this
    {
      count == |queue|
    }

    constructor (size: int)
      ensures Valid() && Value() == Init(size)
    {
      queue, count, this.size := [], 0, size;
    }

    method Clear()
      modifies this`queue, this`count
      ensures Valid() && Value() == Apply(old(Value()), Op.Clear)
    {
      queue := [];
      count := 0;
    }

    method Push(item: SQItem) returns (ok: bool)
      modifies this`queue, this`count
      ensures Value() == Apply(old(Value()), Op.Push(item))
      ensures ok <==> Result(old(Value()), Op.Push(item)) == Accepted(item)
      ensures ok <==> old(count) != size
      ensures queue == if ok then old(queue) + [item] else old(queue)
      ensures old(Valid()) ==> Valid()
    {
      if count == size {
        return false;
      }
      count := count + 1;
      queue := queue + [item];
      return true;
    }

    method Pop() returns (r: Option<SQItem>)
      modifies this`queue, this`count
      ensures Value() == Apply(old(Value()), Op.Pop)
      ensures r == match Result(old(Value()), Op.Pop) case Popped(item) => Some(item) case _ => None
      ensures r == None <==> old(queue) == []
      ensures r.Some? ==> [r.value] + queue == old(queue) && count == old(count) - 1
      ensures old(Valid()) ==> Valid()
    {
      if queue == [] {
        return None;
      }
      r := Some(queue[0]);
      queue := queue[1..];
      count := count - 1;
    }

    method Size() returns (n: int)
      ensures n == count
    {
      return count;
    }
  }

  // ---------- runs ----------

  /** The state after operations issued by any threads, each one atomic. */
  function Run(size: int, ops: seq<Op>): State {
    if ops == [] then Init(size) else Apply(Run(size, ops[..|ops| - 1]), ops[|ops| - 1])
  }

  /** The items accepted since the last clear. */
  function Pushed(size: int, ops: seq<Op>): seq<SQItem> {
    if ops == [] then []
    else
      var before := ops[..|ops| - 1];
      match Result(Run(size, before), ops[|ops| - 1])
      case Accepted(item) => Pushed(size, before) + [item]
      case Cleared => []
      case _ => Pushed(size, before)
  }

  /** The items popped since the last clear. */
  function PoppedItems(size: int, ops: seq<Op>): seq<SQItem> {
    if ops == [] then []
    else
      var before := ops[..|ops| - 1];
      match Result(Run(size, before), ops[|ops| - 1])
      case Popped(item) => PoppedItems(size, before) + [item]
      case Cleared => []
      case _ => PoppedItems(size, before)
  }

  /** The queue refines a FIFO: in every run the counter is the length of the deque, and what was
      popped since the last clear followed by what is queued is exactly what was accepted. */
  lemma {:induction false} RunsAreFifo(size: int, ops: seq<Op>)
    ensures var s := Run(size, ops); s.count == |s.queue| && s.size == size
    ensures PoppedItems(size, ops) + Run(size, ops).queue == Pushed(size, ops)
  {
    if ops != [] {
      var before := ops[..|ops| - 1];
      RunsAreFifo(size, before);
      var s, s' := Run(size, before), Run(size, ops);
      if Result(s, ops[|ops| - 1]).Popped? {
        assert [s.queue[0]] + s'.queue == s.queue;
      }
    }
  }

  /** In every run with a natural size the queue stays within it. */
  lemma {:induction false} BoundedRuns(size: nat, ops: seq<Op>)
    ensures |Run(size, ops).queue| <= size
  {
    if ops != [] {
      var before := ops[..|ops| - 1];
      BoundedRuns(size, before);
      RunsAreFifo(size, before);
    }
  }

  function PushAll(item: SQItem, n: nat): seq<Op> {
    seq(n, i => Op.Push(item))
  }

  lemma {:induction false} NegativeSizeNeverRefuses(size: int, item: SQItem, n: nat)
    requires size < 0
    ensures |Run(size, PushAll(item, n)).queue| == n
    decreases n
  {
    if n > 0 {
      NegativeSizeNeverRefuses(size, item, n - 1);
      RunsAreFifo(size, PushAll(item, n - 1));
      assert PushAll(item, n)[..n - 1] == PushAll(item, n - 1);
    }
  }

  /** Some number bounds the queue in every run. */
  ghost predicate IsBounded(size: int) {
    exists bound: int :: BoundedBy(size, bound)
  }

  ghost predicate BoundedBy(size: int, bound: int) {
    forall ops :: |Run(size, ops).queue| <= bound
  }

  /** The class keeps its queue bounded exactly for sizes that are not negative: only there does the
      equality test for "full" ever succeed. The configuration accepts positive sizes only. */
  lemma BoundedIffSizeNatural(size: int, item: SQItem)
    ensures IsBounded(size) <==> size >= 0
  {
    if size >= 0 {
      forall ops
        ensures |Run(size, ops).queue| <= size
      {
        BoundedRuns(size, ops);
      }
      assert BoundedBy(size, size);
    } else {
      forall bound: int
        ensures !BoundedBy(size, bound)
      {
        var n := if bound < 0 then 0 else bound + 1;
        NegativeSizeNeverRefuses(size, item, n);
      }
    }
  }

  /** In every run with a natural size a push is refused exactly when the queue is at its size. */
  lemma RefusedIffFull(size: nat, ops: seq<Op>, item: SQItem)
    ensures Result(Run(size, ops), Op.Push(item)) == Refused <==> |Run(size, ops).queue| >= size
  {
    RunsAreFifo(size, ops);
    BoundedRuns(size, ops);
  }

  /** With a negative size the queue grows without bound. */
  lemma NegativeSizeIsUnbounded(size: int, item: SQItem, n: nat)
    requires size < 0
    ensures exists ops :: |Run(size, ops).queue| >= n
  {
    NegativeSizeNeverRefuses(size, item, n);
  }
}
