/** The thread pool as a machine over submissions and completions: worker slots, a queue of
    free slot numbers and a queue of requests.  Slots are emptied by events that worker
    threads post to the loop. */
module ThreadPoolModel {
  import opened Lists

  class Thread {
    var threadId: int
    constructor () { threadId := -1; }
  }

  /** worker[i]: no thread, a thread in run(), or one whose clean-up event is posted. */
  datatype Slot = Idle | Running(t: Thread) | Posted(t: Thread)

  /** free and queue are the two queues of the pool; submitted, started and ended record
      the threads handed in, given a slot, and finalized and deleted, in order. */
  datatype Pool = Pool(slots: seq<Slot>, free: seq<int>, queue: seq<Thread>,
                       submitted: seq<Thread>, started: seq<Thread>, ended: seq<Thread>)

  function New(max: nat): Pool {
    Pool(seq(max, _ => Idle), seq(max, i => i), [], [], [], [])
  }

  predicate Shape(p: Pool) {
    forall k :: 0 <= k < |p.free| ==> 0 <= p.free[k] < |p.slots|
  }

  function Start(p: Pool, t: Thread): (q: Pool)
    requires Shape(p) && p.free != []
    ensures Shape(q) && |q.slots| == |p.slots|
  {
    p.(free := p.free[1..], slots := p.slots[p.free[0] := Running(t)], started := p.started + [t])
  }

  function RunAsThread(p: Pool, t: Thread): (q: Pool)
    requires Shape(p)
    ensures Shape(q) && |q.slots| == |p.slots|
  {
    var p' := p.(submitted := p.submitted + [t]);
    if p.free != [] then Start(p', t) else p'.(queue := p.queue + [t])
  }

  function RunAll(p: Pool, ts: seq<Thread>): (q: Pool)
    requires Shape(p)
    ensures Shape(q) && |q.slots| == |p.slots|
    decreases |ts|
  {
    if ts == [] then p else RunAll(RunAsThread(p, ts[0]), ts[1..])
  }

  function ScheduleFromQueue(p: Pool): (q: Pool)
    requires Shape(p)
    ensures Shape(q) && |q.slots| == |p.slots|
    decreases |p.queue|
  {
    if p.queue == [] || p.free == [] then p
    else ScheduleFromQueue(Start(p.(queue := p.queue[1..]), p.queue[0]))
  }

  /** The guard lets i == MAX_THREADS through; Release is only reached with a valid slot. */
  function Release(p: Pool, i: int): (q: Pool)
    requires Shape(p) && 0 <= i < |p.slots|
    ensures Shape(q) && |q.slots| == |p.slots|
  {
    p.(slots := p.slots[i := Idle], free := p.free + [i])
  }

  /** The clean-up event of slot w; more are the threads that finalize() hands in. */
  function CleanUp(p: Pool, w: nat, more: seq<Thread>): (q: Pool)
    requires Shape(p) && w < |p.slots| && p.slots[w].Posted?
    ensures Shape(q) && |q.slots| == |p.slots|
  {
    var t := p.slots[w].t;
    var p1 := RunAll(p, more);
    ScheduleFromQueue(Release(p1.(ended := p1.ended + [t]), w))
  }

  datatype Event = Submit(t: Thread) | RunReturns(w: nat) | CleanUpPosted(w: nat, more: seq<Thread>)

  predicate Enabled(p: Pool, e: Event) {
    match e
    case Submit(_) => true
    case RunReturns(w) => w < |p.slots| && p.slots[w].Running?
    case CleanUpPosted(w, _) => w < |p.slots| && p.slots[w].Posted?
  }

  function Apply(p: Pool, e: Event): (q: Pool)
    requires Shape(p) && Enabled(p, e)
    ensures Shape(q) && |q.slots| == |p.slots|
  {
    match e
    case Submit(t) => RunAsThread(p, t)
    case RunReturns(w) => p.(slots := p.slots[w := Posted(p.slots[w].t)])
    case CleanUpPosted(w, more) => CleanUp(p, w, more)
  }

  // ------------------------------------------------------------------ invariant

  function HeldBy(s: Slot): multiset<Thread> {
    if s.Idle? then multiset{} else multiset{s.t}
  }

  /** The threads that occupy a slot. */
  function Held(slots: seq<Slot>): multiset<Thread> {
    if slots == [] then multiset{} else HeldBy(slots[0]) + Held(slots[1..])
  }

  lemma {:induction false} Shuffle<T>(h: multiset<T>, a: multiset<T>, b: multiset<T>, c: multiset<T>, d: multiset<T>)
    requires a + b == c + d
    ensures (h + a) + b == (h + c) + d
  {
    assert (h + a) + b == h + (a + b) && (h + c) + d == h + (c + d);
  }

  lemma {:induction false} HeldUpdate(slots: seq<Slot>, w: nat, s: Slot)
    requires w < |slots|
    ensures Held(slots[w := s]) + HeldBy(slots[w]) == Held(slots) + HeldBy(s)
  {
    if w == 0 {
      assert slots[0 := s][1..] == slots[1..];
    } else {
      HeldUpdate(slots[1..], w - 1, s);
      assert slots[w := s][1..] == slots[1..][w - 1 := s];
      assert Held(slots[w := s]) == HeldBy(slots[0]) + Held(slots[1..][w - 1 := s]);
      Shuffle(HeldBy(slots[0]), Held(slots[1..][w - 1 := s]), HeldBy(slots[w]), Held(slots[1..]), HeldBy(s));
    }
  }

  lemma {:induction false} HeldNone(slots: seq<Slot>)
    ensures Held(slots) == multiset{} <==> forall i :: 0 <= i < |slots| ==> slots[i].Idle?
  {
    if slots != [] {
      HeldNone(slots[1..]);
      if !slots[0].Idle? {
        assert slots[0].t in Held(slots);
      } else if k :| 0 <= k < |slots| && !slots[k].Idle? {
        assert !slots[1..][k - 1].Idle?;
      }
    }
  }

  lemma {:induction false} HeldHas(slots: seq<Slot>, w: nat)
    requires w < |slots| && !slots[w].Idle?
    ensures slots[w].t in Held(slots)
  {
    if w > 0 {
      HeldHas(slots[1..], w - 1);
    }
  }

  /** A slot is free or busy, never both and never listed twice. */
  ghost predicate Partition(free: seq<int>, slots: seq<Slot>) {
    (forall k :: 0 <= k < |free| ==> 0 <= free[k] < |slots| && slots[free[k]].Idle?) &&
    NoDup(free) &&
    (forall i :: 0 <= i < |slots| && slots[i].Idle? ==> i in free) &&
    |free| + |Held(slots)| == |slots|
  }

  /** Each started thread is either in a slot or ended. */
  ghost predicate Accounted(started: seq<Thread>, ended: seq<Thread>, slots: seq<Slot>) {
    multiset(started) == multiset(ended) + Held(slots)
  }

  /** Threads start in the order they were handed in. */
  ghost predicate Inv(p: Pool)
    ensures Inv(p) ==> Shape(p)
  {
    Partition(p.free, p.slots) && Accounted(p.started, p.ended, p.slots) && p.submitted == p.started + p.queue
  }

  /** Between events nobody waits while a slot is free. */
  ghost predicate Busy(p: Pool) {
    p.queue != [] ==> p.free == []
  }

  lemma {:induction false} NewKeeps(max: nat)
    ensures Inv(New(max)) && Busy(New(max))
  {
    HeldNone(New(max).slots);
    forall i | 0 <= i < max ensures i in New(max).free {
      assert New(max).free[i] == i;
    }
  }

  lemma {:induction false} HeldJoins(slots: seq<Slot>, w: nat, t: Thread)
    requires w < |slots| && slots[w].Idle?
    ensures Held(slots[w := Running(t)]) == Held(slots) + multiset{t}
    ensures |Held(slots[w := Running(t)])| == |Held(slots)| + 1
  {
    HeldUpdate(slots, w, Running(t));
    assert |Held(slots[w := Running(t)])| == |Held(slots) + multiset{t}|;
  }

  lemma {:induction false} TakeFirst(free: seq<int>, slots: seq<Slot>, t: Thread)
    requires Partition(free, slots) && free != []
    ensures Partition(free[1..], slots[free[0] := Running(t)])
    ensures Held(slots[free[0] := Running(t)]) == Held(slots) + multiset{t}
  {
    hide Held;
    HeldJoins(slots, free[0], t);
    NoDupTail(free, 1);
    assert free == [free[0]] + free[1..];
    forall i | 0 <= i < |slots| && slots[free[0] := Running(t)][i].Idle? ensures i in free[1..] {
      assert slots[i].Idle? && i in free && i != free[0];
    }
  }

  lemma {:induction false} HeldLeaves(slots: seq<Slot>, w: nat)
    requires w < |slots| && !slots[w].Idle?
    ensures Held(slots) == Held(slots[w := Idle]) + multiset{slots[w].t}
    ensures |Held(slots)| == |Held(slots[w := Idle])| + 1
  {
    HeldUpdate(slots, w, Idle);
    assert |Held(slots)| == |Held(slots[w := Idle]) + multiset{slots[w].t}|;
  }

  lemma {:induction false} GiveBack(free: seq<int>, slots: seq<Slot>, w: nat)
    requires Partition(free, slots) && w < |slots| && !slots[w].Idle?
    ensures Partition(free + [w], slots[w := Idle])
    ensures Held(slots) == Held(slots[w := Idle]) + multiset{slots[w].t}
  {
    hide Held;
    HeldLeaves(slots, w);
    assert w !in free;
    NoDupAppend(free, w);
    forall i | 0 <= i < |slots| && slots[w := Idle][i].Idle? ensures i in free + [w] {
    }
  }

  /** A free slot is not a busy one. */
  lemma {:induction false} FirstIsIdle(free: seq<int>, slots: seq<Slot>)
    requires Partition(free, slots) && free != []
    ensures 0 <= free[0] < |slots| && slots[free[0]].Idle?
  {
  }

  /** A thread that is first in line takes the first free slot. */
  lemma {:induction false} StartKeeps(p: Pool, t: Thread, rest: seq<Thread>)
    requires Partition(p.free, p.slots) && Accounted(p.started, p.ended, p.slots) && Shape(p) && p.free != []
    requires p.submitted == p.started + ([t] + rest) && p.queue == rest
    ensures Inv(Start(p, t))
    ensures forall w :: 0 <= w < |p.slots| && !p.slots[w].Idle? ==> Start(p, t).slots[w] == p.slots[w]
  {
    TakeFirst(p.free, p.slots, t);
    FirstIsIdle(p.free, p.slots);
    hide Partition;
    SeqAssoc(p.started, [t], rest);
  }

  lemma {:induction false} RunAsThreadKeeps(p: Pool, t: Thread)
    requires Inv(p) && Busy(p)
    ensures var q := RunAsThread(p, t);
      Inv(q) && Busy(q) && q.submitted == p.submitted + [t] && q.ended == p.ended
    ensures forall w :: 0 <= w < |p.slots| && !p.slots[w].Idle? ==> RunAsThread(p, t).slots[w] == p.slots[w]
  {
    hide Partition, Accounted;
    if p.free != [] {
      assert p.started + [] == p.started && [t] + [] == [t];
      StartKeeps(p.(submitted := p.submitted + [t]), t, []);
    } else {
      SeqAssoc(p.started, p.queue, [t]);
    }
  }

  /** A thread handed in starts in the slot that has been free longest, or waits behind the others. */
  lemma {:induction false} SubmitMeans(p: Pool, t: Thread)
    requires Inv(p)
    ensures var q := RunAsThread(p, t);
      q.submitted == p.submitted + [t] && q.ended == p.ended &&
      if p.free == [] then q.queue == p.queue + [t] && q.slots == p.slots && q.free == [] && q.started == p.started
      else q.queue == p.queue && q.slots == p.slots[p.free[0] := Running(t)] && [p.free[0]] + q.free == p.free &&
           q.started == p.started + [t]
  {
    hide Inv;
  }

  lemma {:induction false} RunAllKeeps(p: Pool, ts: seq<Thread>)
    requires Inv(p) && Busy(p)
    ensures var q := RunAll(p, ts); Inv(q) && Busy(q) && q.submitted == p.submitted + ts && q.ended == p.ended
    ensures forall w :: 0 <= w < |p.slots| && !p.slots[w].Idle? ==> RunAll(p, ts).slots[w] == p.slots[w]
    decreases |ts|
  {
    hide Inv, Busy, RunAsThread;
    if ts != [] {
      RunAsThreadKeeps(p, ts[0]);
      RunAllKeeps(RunAsThread(p, ts[0]), ts[1..]);
      SeqAssoc(p.submitted, [ts[0]], ts[1..]);
      assert ts == [ts[0]] + ts[1..];
    }
  }

  lemma {:induction false} ScheduleKeeps(p: Pool)
    requires Inv(p)
    ensures var q := ScheduleFromQueue(p); Inv(q) && Busy(q) && q.submitted == p.submitted && q.ended == p.ended
    ensures forall w :: 0 <= w < |p.slots| && !p.slots[w].Idle? ==> ScheduleFromQueue(p).slots[w] == p.slots[w]
    decreases |p.queue|
  {
    hide Partition, Accounted;
    if p.queue != [] && p.free != [] {
      assert p.queue == [p.queue[0]] + p.queue[1..];
      StartKeeps(p.(queue := p.queue[1..]), p.queue[0], p.queue[1..]);
      ScheduleKeeps(Start(p.(queue := p.queue[1..]), p.queue[0]));
    }
  }

  /** One thread ends: it leaves its slot and the slot becomes free. */
  lemma {:induction false} ReleaseKeeps(p: Pool, w: nat, t: Thread)
    requires Inv(p) && w < |p.slots| && !p.slots[w].Idle? && p.slots[w].t == t
    ensures Inv(Release(p.(ended := p.ended + [t]), w))
  {
    GiveBack(p.free, p.slots, w);
    hide Partition;
    assert multiset(p.ended + [t]) == multiset(p.ended) + multiset{t};
  }

  /** The clean-up ends exactly its own thread, whatever finalize() hands in meanwhile,
      and leaves the other busy slots alone. */
  lemma {:induction false} CleanUpKeeps(p: Pool, w: nat, more: seq<Thread>)
    requires Inv(p) && Busy(p) && w < |p.slots| && p.slots[w].Posted?
    ensures var q := CleanUp(p, w, more);
      Inv(q) && Busy(q) && q.ended == p.ended + [p.slots[w].t] && q.submitted == p.submitted + more
    ensures forall v :: 0 <= v < |p.slots| && v != w && !p.slots[v].Idle? ==> CleanUp(p, w, more).slots[v] == p.slots[v]
  {
    hide Inv, Busy, RunAll, ScheduleFromQueue;
    RunAllKeeps(p, more);
    ReleaseKeeps(RunAll(p, more), w, p.slots[w].t);
    ScheduleKeeps(Release(RunAll(p, more).(ended := p.ended + [p.slots[w].t]), w));
  }

  /** The slot of an ended thread goes to the first thread that waits, or behind the free ones. */
  lemma {:induction false} CleanUpMeans(p: Pool, w: nat)
    requires Inv(p) && Busy(p) && w < |p.slots| && p.slots[w].Posted?
    ensures var q := CleanUp(p, w, []);
      q.submitted == p.submitted && q.ended == p.ended + [p.slots[w].t] &&
      if p.queue == [] then q.queue == [] && q.slots == p.slots[w := Idle] && q.free == p.free + [w] && q.started == p.started
      else [p.queue[0]] + q.queue == p.queue && q.slots == p.slots[w := Running(p.queue[0])] && q.free == [] &&
           q.started == p.started + [p.queue[0]]
  {
    hide Inv;
    if p.queue != [] {
      var p1 := Release(p.(ended := p.ended + [p.slots[w].t]), w);
      assert p1.free == [w];
      var p2 := Start(p1.(queue := p.queue[1..]), p.queue[0]);
      assert p2.slots == p.slots[w := Running(p.queue[0])];
      assert ScheduleFromQueue(p2) == p2;
    }
  }

  lemma {:induction false} Cancel<T>(a: multiset<T>, b: multiset<T>, c: multiset<T>)
    requires a + c == b + c
    ensures a == b
  {
    forall x ensures a[x] == b[x] {
      assert (a + c)[x] == (b + c)[x];
    }
  }

  lemma {:induction false} SameHolder(slots: seq<Slot>, w: nat)
    requires w < |slots| && slots[w].Running?
    ensures Held(slots[w := Posted(slots[w].t)]) == Held(slots)
  {
    HeldUpdate(slots, w, Posted(slots[w].t));
    Cancel(Held(slots[w := Posted(slots[w].t)]), Held(slots), HeldBy(slots[w]));
  }

  lemma {:induction false} SamePartition(free: seq<int>, slots: seq<Slot>, slots': seq<Slot>)
    requires Partition(free, slots) && |slots'| == |slots| && |Held(slots')| == |Held(slots)|
    requires forall i :: 0 <= i < |slots| ==> slots'[i].Idle? == slots[i].Idle?
    ensures Partition(free, slots')
  {
    hide Held, NoDup;
  }

  lemma {:induction false} RunReturnsKeeps(p: Pool, w: nat)
    requires Inv(p) && Busy(p) && w < |p.slots| && p.slots[w].Running?
    ensures var q := Apply(p, RunReturns(w)); Inv(q) && Busy(q)
  {
    hide Held;
    SameHolder(p.slots, w);
    SamePartition(p.free, p.slots, p.slots[w := Posted(p.slots[w].t)]);
    hide Partition;
  }

  /** What an event hands in and what it ends. */
  function HandedBy(e: Event): seq<Thread> {
    match e
    case Submit(t) => [t]
    case RunReturns(_) => []
    case CleanUpPosted(_, more) => more
  }

  function EndedBy(p: Pool, e: Event): seq<Thread>
    requires Enabled(p, e)
  {
    if e.CleanUpPosted? then [p.slots[e.w].t] else []
  }

  lemma {:induction false} StepKeeps(p: Pool, e: Event)
    requires Inv(p) && Busy(p) && Enabled(p, e)
    ensures var q := Apply(p, e);
      Inv(q) && Busy(q) && q.submitted == p.submitted + HandedBy(e) && q.ended == p.ended + EndedBy(p, e)
  {
    hide Inv, Busy, RunAsThread, CleanUp;
    match e
    case Submit(t) => RunAsThreadKeeps(p, t);
    case RunReturns(w) => RunReturnsKeeps(p, w);
    case CleanUpPosted(w, more) => CleanUpKeeps(p, w, more);
  }

  /** A slot is held by one thread at a time: only its own clean-up takes it away. */
  lemma {:induction false} SlotKept(p: Pool, e: Event, w: nat)
    requires Inv(p) && Busy(p) && Enabled(p, e)
    requires w < |p.slots| && !p.slots[w].Idle?
    requires !(e.CleanUpPosted? && e.w == w)
    ensures !Apply(p, e).slots[w].Idle? && Apply(p, e).slots[w].t == p.slots[w].t
  {
    hide Inv, Busy, RunAsThread, CleanUp;
    match e
    case Submit(t) => RunAsThreadKeeps(p, t);
    case RunReturns(_) =>
    case CleanUpPosted(v, more) => CleanUpKeeps(p, v, more);
  }

  // ----------------------------------------------------------------------- runs

  /** q is reached from p by the events es, each possible when it happens. */
  ghost predicate Reaches(p: Pool, es: seq<Event>, q: Pool)
    decreases |es|
  {
    if es == [] then q == p
    else Shape(p) && Enabled(p, es[0]) && Reaches(Apply(p, es[0]), es[1..], q)
  }

  function HandedIn(es: seq<Event>): seq<Thread> {
    if es == [] then [] else HandedBy(es[0]) + HandedIn(es[1..])
  }

  lemma {:induction false} RunKeeps(p: Pool, es: seq<Event>, q: Pool)
    requires Inv(p) && Busy(p) && Reaches(p, es, q)
    ensures Inv(q) && Busy(q) && |q.slots| == |p.slots|
    ensures q.submitted == p.submitted + HandedIn(es)
    ensures p.ended <= q.ended
    decreases |es|
  {
    hide Inv, Busy, Apply;
    if es != [] {
      StepKeeps(p, es[0]);
      RunKeeps(Apply(p, es[0]), es[1..], q);
      SeqAssoc(p.submitted, HandedBy(es[0]), HandedIn(es[1..]));
    }
  }

  lemma {:induction false} FreshRunKeeps(max: nat, es: seq<Event>, q: Pool)
    requires Reaches(New(max), es, q)
    ensures Inv(q) && Busy(q) && |q.slots| == max && q.submitted == HandedIn(es)
  {
    NewKeeps(max);
    RunKeeps(New(max), es, q);
  }

  /** Threads start in the order they were handed in, and none waits beside a free slot. */
  lemma {:induction false} StartsInOrder(max: nat, es: seq<Event>, q: Pool)
    requires Reaches(New(max), es, q)
    ensures |q.slots| == max && q.started + q.queue == HandedIn(es)
    ensures q.queue != [] ==> |Held(q.slots)| == max && forall w :: 0 <= w < max ==> !q.slots[w].Idle?
    ensures |q.started| == |q.ended| + |Held(q.slots)|
  {
    FreshRunKeeps(max, es, q);
    assert |multiset(q.started)| == |multiset(q.ended) + Held(q.slots)|;
  }

  lemma {:induction false} NoDupCounts<T>(xs: seq<T>, x: T)
    requires NoDup(xs)
    ensures multiset(xs)[x] <= 1
  {
    if xs != [] {
      NoDupTail(xs, 1);
      NoDupCounts(xs[1..], x);
      assert xs == [xs[0]] + xs[1..];
    }
  }

  lemma {:induction false} TwiceCounts<T>(xs: seq<T>, i: nat, j: nat)
    requires i < j < |xs| && xs[i] == xs[j]
    ensures multiset(xs)[xs[i]] >= 2
  {
    assert xs == xs[..j] + [xs[j]] + xs[j + 1..];
    assert xs[i] == xs[..j][i];
  }

  /** What is in two of the sets that make up a list without repetitions. */
  lemma {:induction false} OnlyOnce<T>(all: seq<T>, left: seq<T>, right: multiset<T>)
    requires NoDup(all) && multiset(all) == multiset(left) + right
    ensures NoDup(left) && forall x :: x in left ==> x in all && x !in right
  {
    forall x | x in left ensures x in all && x !in right {
      NoDupCounts(all, x);
      assert x in multiset(left);
      assert x in multiset(all);
    }
    forall i, j | 0 <= i < j < |left| ensures left[i] != left[j] {
      NoDupCounts(all, left[i]);
      if left[i] == left[j] {
        TwiceCounts(left, i, j);
        assert false;
      }
    }
  }

  lemma {:induction false} NoDupParts<T>(a: seq<T>, b: seq<T>)
    requires NoDup(a + b)
    ensures NoDup(a) && forall x :: x in a ==> x !in b
  {
    assert forall i :: 0 <= i < |a| ==> a[i] == (a + b)[i];
    assert forall j :: 0 <= j < |b| ==> b[j] == (a + b)[|a| + j];
  }

  /** Each thread that is handed in once ends at most once, and never while in a slot. */
  lemma {:induction false} EndsOnce(max: nat, es: seq<Event>, q: Pool)
    requires Reaches(New(max), es, q) && NoDup(HandedIn(es))
    ensures NoDup(q.ended)
    ensures forall t :: t in q.ended ==> t in q.started && t !in q.queue && t !in Held(q.slots)
  {
    FreshRunKeeps(max, es, q);
    hide Partition, Reaches, HandedIn, Held;
    NoDupParts(q.started, q.queue);
    OnlyOnce(q.started, q.ended, Held(q.slots));
  }

  /** When every slot is empty again, everything handed in has ended. */
  lemma {:induction false} QuietMeansDone(max: nat, es: seq<Event>, q: Pool)
    requires max > 0 && Reaches(New(max), es, q) && forall w :: 0 <= w < |q.slots| ==> q.slots[w].Idle?
    ensures q.queue == [] && multiset(q.ended) == multiset(HandedIn(es))
  {
    FreshRunKeeps(max, es, q);
    hide Reaches, HandedIn;
    HeldNone(q.slots);
    assert q.slots[0].Idle?;
    assert 0 in q.free;
    assert q.started + [] == q.started;
  }

  // ------------------------------------------------- threads outside the slots

  /** No slot holds t. */
  predicate Outside(slots: seq<Slot>, t: Thread) {
    forall i :: 0 <= i < |slots| && !slots[i].Idle? ==> slots[i].t != t
  }

  lemma {:induction false} StartedOutside(p: Pool, t: Thread)
    requires Accounted(p.started, p.ended, p.slots) && t !in p.started
    ensures Outside(p.slots, t)
  {
    forall i | 0 <= i < |p.slots| && !p.slots[i].Idle? ensures p.slots[i].t != t {
      HeldHas(p.slots, i);
      assert p.slots[i].t in multiset(p.started);
    }
  }

  /** Neither a queued thread nor one that was never handed in is in a slot. */
  lemma {:induction false} WaitingOutside(p: Pool, t: Thread)
    requires Inv(p) && NoDup(p.submitted) && (t in p.queue || t !in p.submitted)
    ensures Outside(p.slots, t)
  {
    NoDupParts(p.started, p.queue);
    StartedOutside(p, t);
  }
}
