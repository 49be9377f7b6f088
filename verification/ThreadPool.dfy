/** The thread pool in place; each method performs one step of ThreadPoolModel. */
module ThreadPool {
  import opened Lists
  import M = ThreadPoolModel
  type Thread = M.Thread

  class ThreadPool {
    const maxThreads: nat
    var freeThreads: seq<int>
    var requestQueue: seq<Thread>
    const worker: array<M.Slot>
    ghost var submitted: seq<Thread>
    ghost var started: seq<Thread>
    ghost var ended: seq<Thread>

    ghost function Abs(): M.Pool
      reads this, worker
    {
      M.Pool(worker[..], freeThreads, requestQueue, submitted, started, ended)
    }

    /** The slots are sound, nothing was handed in twice, and a thread in a slot carries
        that slot's number. */
    ghost predicate Valid()
      reads this, worker, set i | 0 <= i < worker.Length && !worker[i].Idle? :: worker[i].t
      ensures Valid() ==> M.Shape(Abs())
    {
      worker.Length == maxThreads && M.Inv(Abs()) && NoDup(submitted) &&
      forall i :: 0 <= i < worker.Length && !worker[i].Idle? ==> worker[i].t.threadId == i
    }

    constructor (max: nat)
      ensures Valid() && fresh(worker) && Abs() == M.New(max)
    {
      maxThreads := max;
      worker := new M.Slot[max](_ => M.Idle);
      requestQueue, submitted, started, ended := [], [], [], [];
      freeThreads := [];
      new;
      for i := 0 to max
        invariant freeThreads == seq(i, j => j)
        invariant requestQueue == [] && submitted == [] && started == [] && ended == []
        invariant fresh(worker) && forall i :: 0 <= i < max ==> worker[i].Idle?
      {
        freeThreads := freeThreads + [i];
      }
      assert worker[..] == M.New(max).slots;
      M.NewKeeps(max);
    }

    /** The front of the free queue, or -1. */
    method GetFreeThread() returns (w: int)
      modifies this`freeThreads
      ensures old(freeThreads) == [] ==> w == -1 && freeThreads == []
      ensures old(freeThreads) != [] ==> [w] + freeThreads == old(freeThreads)
    {
      w := -1;
      if freeThreads != [] {
        w := freeThreads[0];
        freeThreads := freeThreads[1..];
      }
    }

    /** Starts t at once, or queues it when every slot is busy. */
    method RunAsThread(t: Thread)
      requires Valid() && M.Busy(Abs()) && t !in submitted
      modifies this, worker, t
      ensures Valid() && M.Busy(Abs()) && Abs() == M.RunAsThread(old(Abs()), t)
      ensures old(freeThreads) == [] ==> requestQueue == old(requestQueue) + [t] && worker[..] == old(worker[..])
      ensures old(freeThreads) != [] ==>
        freeThreads == old(freeThreads)[1..] && t.threadId == old(freeThreads)[0] && requestQueue == old(requestQueue) &&
        worker[..] == old(worker[..])[old(freeThreads)[0] := M.Running(t)]
    {
      ghost var p := Abs();
      M.WaitingOutside(p, t);
      M.RunAsThreadKeeps(p, t);
      NoDupAppend(submitted, t);
      submitted := submitted + [t];
      var w := GetFreeThread();
      if w != -1 {
        t.threadId := w;
        worker[w] := M.Running(t);
        started := started + [t];
      } else {
        requestQueue := requestQueue + [t];
      }
      assert Abs() == M.RunAsThread(p, t);
    }

    /** Gives the first queued thread a slot, if there is one. */
    method StartQueued() returns (ok: bool)
      requires Valid() && requestQueue != []
      modifies this, worker, requestQueue[0]
      ensures Valid() && ok == (old(freeThreads) != [])
      ensures ok ==> requestQueue == old(requestQueue)[1..]
      ensures Abs() == if ok then M.Start(old(Abs()).(queue := old(requestQueue)[1..]), old(requestQueue)[0]) else old(Abs())
    {
      ghost var p := Abs();
      M.WaitingOutside(p, p.queue[0]);
      assert p.queue == [p.queue[0]] + p.queue[1..];
      if freeThreads != [] {
        M.StartKeeps(p.(queue := p.queue[1..]), p.queue[0], p.queue[1..]);
      }
      hide M.Inv, M.Shape;
      var w := GetFreeThread();
      ok := w != -1;
      if ok {
        var t := requestQueue[0];
        requestQueue := requestQueue[1..];
        t.threadId := w;
        worker[w] := M.Running(t);
        started := started + [t];
        assert Abs() == M.Start(p.(queue := p.queue[1..]), t);
      } else {
        assert Abs() == p;
      }
    }

    /** Starts queued threads while slots are free. */
    method ScheduleFromQueue()
      requires Valid()
      modifies this, worker, set t | t in requestQueue
      ensures Valid() && M.Busy(Abs()) && Abs() == M.ScheduleFromQueue(old(Abs()))
    {
      ghost var p := Abs();
      hide Valid, M.Inv, M.Start;
      while requestQueue != []
        invariant Valid() && M.ScheduleFromQueue(Abs()) == M.ScheduleFromQueue(p)
        invariant forall t :: t in requestQueue ==> t in old(requestQueue)
        decreases |requestQueue|
      {
        var ok := StartQueued();
        if !ok { break; }
      }
    }

    /** Frees slot i, which thread t has held; other numbers are ignored, except maxThreads,
        which the guard lets through to a slot that does not exist. */
    method ReleaseThread(i: int, ghost t: Thread)
      requires Valid() && i != maxThreads && (0 <= i < maxThreads ==> !worker[i].Idle? && worker[i].t == t)
      modifies this, worker
      ensures Valid()
      ensures Abs() ==
        if 0 <= i < maxThreads then M.Release(old(Abs()).(ended := old(ended) + [t]), i) else old(Abs())
      ensures 0 <= i < maxThreads ==>
        freeThreads == old(freeThreads) + [i] && worker[..] == old(worker[..])[i := M.Idle] && ended == old(ended) + [t]
    {
      if i < 0 || i > maxThreads { return; }
      M.ReleaseKeeps(Abs(), i, t);
      hide M.Inv, M.Shape;
      ended := ended + [t];
      worker[i] := M.Idle;
      freeThreads := freeThreads + [i];
      assert worker[..] == old(worker[..])[i := M.Idle];
    }

    /** A worker's run() returned: its clean-up is posted to the loop. */
    method WorkerReturns(w: int)
      requires Valid() && M.Busy(Abs()) && 0 <= w < maxThreads && worker[w].Running?
      modifies worker
      ensures Valid() && M.Busy(Abs()) && Abs() == M.Apply(old(Abs()), M.RunReturns(w))
    {
      M.RunReturnsKeeps(Abs(), w);
      worker[w] := M.Posted(worker[w].t);
      assert worker[..] == old(worker[..])[w := M.Posted(old(worker[w]).t)];
    }

    /** What finalize() hands in. */
    method RunAll(more: seq<Thread>)
      requires Valid() && M.Busy(Abs()) && NoDup(more) && forall s :: s in more ==> s !in submitted
      modifies this, worker, set s | s in more
      ensures Valid() && M.Busy(Abs()) && Abs() == M.RunAll(old(Abs()), more)
      ensures forall s :: s in requestQueue ==> s in old(requestQueue) || s in more
    {
      ghost var p := Abs();
      hide Valid, M.Inv, M.Busy;
      for i := 0 to |more|
        invariant Valid() && M.Busy(Abs()) && M.RunAll(Abs(), more[i..]) == M.RunAll(p, more)
        invariant submitted == p.submitted + more[..i]
        invariant forall s :: s in requestQueue ==> s in p.queue || s in more
      {
        RunAsThread(more[i]);
      }
    }

    /** The posted clean-up: finalizes and deletes t, frees its slot, and schedules. */
    method CleandUp(t: Thread, wid: int, more: seq<Thread>)
      requires Valid() && M.Busy(Abs()) && 0 <= wid < maxThreads && worker[wid] == M.Posted(t)
      requires NoDup(more) && forall s :: s in more ==> s !in submitted
      modifies this, worker, set s | s in more, set s | s in requestQueue
      ensures Valid() && M.Busy(Abs()) && Abs() == M.CleanUp(old(Abs()), wid, more)
    {
      ghost var p := Abs();
      M.RunAllKeeps(p, more);
      RunAll(more);
      hide M.Inv, M.Busy, M.RunAll;
      ReleaseThread(wid, t);
      ScheduleFromQueue();
    }
  }
}
