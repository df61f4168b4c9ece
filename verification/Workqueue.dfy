/** The de-duplicating, rate-limited work queue: first as a value, then as the object workers share. */
module Workqueue {
  /** `dirty` needs processing, `processing` is in a worker's hands, `waiting` is rate-limited. */
  datatype Queue = Queue(
    queue: seq<string>,
    dirty: set<string>,
    processing: set<string>,
    waiting: set<string>,
    shuttingDown: bool)
  {
    function Add(k: string): Queue {
      if shuttingDown || k in dirty then this
      else if k in processing then this.(dirty := dirty + {k})
      else this.(dirty := dirty + {k}, queue := queue + [k])
    }

    function Take(): (string, Queue)
      requires queue != []
    {
      (queue[0], this.(queue := queue[1..], processing := processing + {queue[0]}, dirty := dirty - {queue[0]}))
    }

    function Done(k: string): Queue {
      this.(processing := processing - {k}, queue := if k in dirty then queue + [k] else queue)
    }

    function AddRateLimited(k: string): Queue {
      if shuttingDown then this else this.(waiting := waiting + {k})
    }

    /** The back-off of a waiting key is over. */
    function Fire(k: string): Queue {
      this.(waiting := waiting - {k}).Add(k)
    }

    function ShutDown(): Queue {
      this.(shuttingDown := true)
    }

    /**
      Each key is queued at most once, queued keys are dirty and in nobody's hands, and a dirty key
      that is in nobody's hands is queued: no wake-up is lost.
    */
    ghost predicate Wf() {
      && (forall i, j :: 0 <= i < j < |queue| ==> queue[i] != queue[j])
      && (forall k :: k in queue ==> k in dirty && k !in processing)
      && (forall k :: k in dirty && k !in processing ==> k in queue)
    }
  }

  const EMPTY := Queue([], {}, {}, {}, false)

  lemma AddWf(q: Queue, k: string)
    requires q.Wf()
    ensures q.Add(k).Wf()
    ensures !q.shuttingDown ==> k in q.Add(k).dirty
    ensures q.dirty <= q.Add(k).dirty && q.Add(k).processing == q.processing
  {
  }

  /** Get hands out a key that nobody else holds. */
  lemma TakeWf(q: Queue)
    requires q.Wf() && q.queue != []
    ensures q.Take().1.Wf()
    ensures q.Take().0 !in q.processing && q.Take().1.processing == q.processing + {q.Take().0}
  {
    var (k, q') := q.Take();
    assert forall o :: o in q.queue <==> o == k || o in q'.queue;
  }

  /** A key that was added while it was being processed is queued again. */
  lemma DoneWf(q: Queue, k: string)
    requires q.Wf() && k in q.processing
    ensures q.Done(k).Wf()
    ensures k in q.Done(k).queue <==> k in q.dirty
  {
  }

  // ---------- Runs of queue operations ----------

  datatype Op = OpAdd(k: string) | OpTake | OpDone(k: string) | OpRateLimited(k: string) | OpFire(k: string) | OpShutDown

  /** Workers release only what they hold, and Get returns an item only when there is one. */
  predicate OpEnabled(q: Queue, op: Op) {
    match op
    case OpTake => q.queue != []
    case OpDone(k) => k in q.processing
    case OpFire(k) => k in q.waiting
    case _ => true
  }

  function Perform(q: Queue, op: Op): Queue
    requires OpEnabled(q, op)
  {
    match op
    case OpAdd(k) => q.Add(k)
    case OpTake => q.Take().1
    case OpDone(k) => q.Done(k)
    case OpRateLimited(k) => q.AddRateLimited(k)
    case OpFire(k) => q.Fire(k)
    case OpShutDown => q.ShutDown()
  }

  ghost predicate OpRun(q: Queue, ops: seq<Op>, q': Queue)
    decreases |ops|
  {
    if ops == [] then q == q'
    else OpEnabled(q, ops[0]) && OpRun(Perform(q, ops[0]), ops[1..], q')
  }

  /** How often a key is handed out, and released, over a run. */
  function Taken(q: Queue, ops: seq<Op>, k: string): nat
    decreases |ops|
  {
    if ops == [] || !OpEnabled(q, ops[0]) then 0
    else (if ops[0].OpTake? && q.queue[0] == k then 1 else 0) + Taken(Perform(q, ops[0]), ops[1..], k)
  }

  function Released(ops: seq<Op>, k: string): nat {
    if ops == [] then 0 else (if ops[0] == OpDone(k) then 1 else 0) + Released(ops[1..], k)
  }

  lemma StepWf(q: Queue, op: Op)
    requires q.Wf() && OpEnabled(q, op)
    ensures Perform(q, op).Wf()
  {
    match op
    case OpAdd(k) => AddWf(q, k);
    case OpTake => TakeWf(q);
    case OpDone(k) => DoneWf(q, k);
    case OpFire(k) => AddWf(q.(waiting := q.waiting - {k}), k);
    case _ =>
  }

  /** A key is held by at most one worker at any time: hand-outs and releases of it alternate. */
  lemma {:induction false} HeldOnce(q: Queue, ops: seq<Op>, q': Queue, k: string)
    requires q.Wf() && OpRun(q, ops, q')
    ensures q'.Wf()
    ensures (if k in q.processing then 1 else 0) + Taken(q, ops, k)
         == Released(ops, k) + (if k in q'.processing then 1 else 0)
    decreases |ops|
  {
    if ops != [] {
      var q1 := Perform(q, ops[0]);
      StepWf(q, ops[0]);
      HeldOnce(q1, ops[1..], q', k);
      if ops[0].OpTake? { TakeWf(q); }
    }
  }

  /** No lost wake-up: a key that needs processing still does, unless it has been handed out since. */
  lemma {:induction false} WakeUpKept(q: Queue, ops: seq<Op>, q': Queue, k: string)
    requires q.Wf() && OpRun(q, ops, q') && k in q.dirty
    ensures k in q'.dirty || Taken(q, ops, k) > 0
    ensures Taken(q, ops, k) == 0 && k !in q'.processing ==> k in q'.queue
    decreases |ops|
  {
    if ops != [] {
      var q1 := Perform(q, ops[0]);
      StepWf(q, ops[0]);
      if k in q1.dirty {
        WakeUpKept(q1, ops[1..], q', k);
      } else {
        assert ops[0].OpTake? && q.queue[0] == k;
      }
    }
  }

  /** How many items are ahead of the key. */
  function Ahead(queue: seq<string>, k: string): (n: nat)
    requires k in queue
    ensures n < |queue| && queue[n] == k && forall i :: 0 <= i < n ==> queue[i] != k
  {
    if queue[0] == k then 0 else 1 + Ahead(queue[1..], k)
  }

  function Takes(ops: seq<Op>): nat {
    if ops == [] then 0 else (if ops[0].OpTake? then 1 else 0) + Takes(ops[1..])
  }

  lemma AheadIs(queue: seq<string>, k: string, n: nat)
    requires n < |queue| && queue[n] == k && forall i :: 0 <= i < n ==> queue[i] != k
    ensures Ahead(queue, k) == n
  {
  }

  /** Only taking an item moves a queued key, and by one place. */
  lemma StepAhead(q: Queue, op: Op, k: string)
    requires q.Wf() && OpEnabled(q, op) && k in q.queue && !(op.OpTake? && q.queue[0] == k)
    ensures k in Perform(q, op).queue
    ensures Ahead(Perform(q, op).queue, k) == Ahead(q.queue, k) - (if op.OpTake? then 1 else 0)
  {
    var n, q' := Ahead(q.queue, k), Perform(q, op);
    if op.OpTake? {
      assert n > 0 && q'.queue[n - 1] == k && forall i :: 0 <= i < n - 1 ==> q'.queue[i] == q.queue[i + 1];
      AheadIs(q'.queue, k, n - 1);
    } else {
      assert q'.queue[n] == k && forall i :: 0 <= i < n ==> q'.queue[i] == q.queue[i];
      AheadIs(q'.queue, k, n);
    }
  }

  /**
    First in, first out: a queued key is handed out by the very hand-out that follows those of the items
    ahead of it, whatever is added, released or backed off in between.
  */
  lemma {:induction false} FirstInFirstOut(q: Queue, ops: seq<Op>, q': Queue, k: string)
    requires q.Wf() && OpRun(q, ops, q') && k in q.queue
    ensures Taken(q, ops, k) > 0 <==> Takes(ops) > Ahead(q.queue, k)
    ensures Takes(ops) <= Ahead(q.queue, k) ==> k in q'.queue && Ahead(q'.queue, k) == Ahead(q.queue, k) - Takes(ops)
    decreases |ops|
  {
    if ops != [] {
      var op, q1 := ops[0], Perform(q, ops[0]);
      StepWf(q, op);
      if !(op.OpTake? && q.queue[0] == k) {
        StepAhead(q, op, k);
        FirstInFirstOut(q1, ops[1..], q', k);
      }
    }
  }

  // ---------- The shared object ----------

  /** What Get does: hand out an item, tell the worker to quit, or block. */
  datatype Got = Item(key: string) | Quit | Blocked

  class WorkQueue {
    var queue: seq<string>
    var dirty: set<string>
    var processing: set<string>
    var waiting: set<string>
    var shuttingDown: bool

    function Value(): Queue
      reads this
    {
      Queue(queue, dirty, processing, waiting, shuttingDown)
    }

    constructor ()
      ensures Value() == EMPTY && Value().Wf()
    {
      queue, dirty, processing, waiting, shuttingDown := [], {}, {}, {}, false;
    }

    method Add(item: string)
      requires Value().Wf()
      modifies this
      ensures Value() == old(Value()).Add(item) && Value().Wf()
      ensures dirty == old(dirty) + (if shuttingDown then {} else {item})
      ensures queue == old(queue) + (if shuttingDown || item in old(dirty) || item in processing then [] else [item])
      ensures processing == old(processing) && waiting == old(waiting) && shuttingDown == old(shuttingDown)
    {
      AddWf(Value(), item);
      if shuttingDown {
        return;
      }
      if item in dirty {
        return;
      }
      dirty := dirty + {item};
      if item in processing {
        return;
      }
      queue := queue + [item];
    }

    method Get() returns (r: Got)
      requires Value().Wf()
      modifies this
      ensures r.Item? <==> old(queue) != []
      ensures r.Quit? <==> old(queue) == [] && old(shuttingDown)
      ensures r.Item? ==> r.key == old(queue)[0] && Value() == old(Value()).Take().1
      ensures r.Item? ==> queue == old(queue)[1..] && dirty == old(dirty) - {r.key} && processing == old(processing) + {r.key}
      ensures waiting == old(waiting) && shuttingDown == old(shuttingDown)
      ensures !r.Item? ==> Value() == old(Value())
      ensures Value().Wf()
    {
      if |queue| == 0 && !shuttingDown {
        return Blocked;
      }
      if |queue| == 0 {
        return Quit;
      }
      TakeWf(Value());
      var item := queue[0];
      queue := queue[1..];
      processing := processing + {item};
      dirty := dirty - {item};
      r := Item(item);
    }

    method Done(item: string)
      requires Value().Wf() && item in processing
      modifies this
      ensures Value() == old(Value()).Done(item) && Value().Wf()
      ensures processing == old(processing) - {item} && queue == old(queue) + (if item in dirty then [item] else [])
      ensures dirty == old(dirty) && waiting == old(waiting) && shuttingDown == old(shuttingDown)
    {
      DoneWf(Value(), item);
      processing := processing - {item};
      if item in dirty {
        queue := queue + [item];
      }
    }

    method AddRateLimited(item: string)
      requires Value().Wf()
      modifies this
      ensures Value() == old(Value()).AddRateLimited(item) && Value().Wf()
      ensures waiting == old(waiting) + (if shuttingDown then {} else {item})
      ensures queue == old(queue) && dirty == old(dirty) && processing == old(processing) && shuttingDown == old(shuttingDown)
    {
      if !shuttingDown {
        waiting := waiting + {item};
      }
    }

    method ShutDown()
      requires Value().Wf()
      modifies this
      ensures Value() == old(Value()).ShutDown() && Value().Wf()
      ensures shuttingDown && queue == old(queue) && dirty == old(dirty) && processing == old(processing) && waiting == old(waiting)
    {
      shuttingDown := true;
    }
  }
}
