/** Readers that collect bytes in a buffer and peel complete items off its front, stated
    once for both wire formats of the server.  `step` looks at a buffer and either waits
    for more bytes or takes some of them. */
module Streams {
  import opened Lists
  import opened Wrappers

  /** The number that bytes stand for, most significant first. */
  function Big(b: seq<byte>): nat {
    if b == [] then 0 else 256 * Big(b[..|b| - 1]) + b[|b| - 1] as nat
  }

  lemma {:induction false} BigLast(b: seq<byte>, last: byte)
    ensures Big(b + [last]) == 256 * Big(b) + last as nat
  {
    assert (b + [last])[..|b|] == b;
  }

  /** Deliver hands an item on, Skip drops it, Stop drops it and leaves the read loop. */
  datatype Verdict<M> = Deliver(m: M) | Skip | Stop

  datatype Step<M> = Wait | Take(n: nat, verdict: Verdict<M>)

  /** A step takes bytes that are there, and later bytes do not change its mind. */
  ghost predicate Steady<M(!new)>(step: seq<byte> -> Step<M>) {
    && (forall a :: step(a).Take? ==> 0 < step(a).n <= |a|)
    && (forall a, b {:trigger step(a), step(a + b)} :: step(a).Take? ==> step(a + b) == step(a))
  }

  function Emitted<M>(v: Verdict<M>): seq<M> {
    match v case Deliver(m) => [m] case _ => []
  }

  /** One run of the read loop: what it delivers and what it leaves in the buffer. */
  function Drain<M(!new)>(step: seq<byte> -> Step<M>, buf: seq<byte>): (seq<M>, seq<byte>)
    requires Steady(step)
    decreases |buf|
  {
    match step(buf)
    case Wait => ([], buf)
    case Take(n, v) =>
      if v.Stop? then ([], buf[n..]) else
      var (out, rest) := Drain(step, buf[n..]);
      (Emitted(v) + out, rest)
  }

  /** All items in buf, in order, and the incomplete one at its end. */
  function Items<M(!new)>(step: seq<byte> -> Step<M>, buf: seq<byte>): (seq<M>, seq<byte>)
    requires Steady(step)
    decreases |buf|
  {
    match step(buf)
    case Wait => ([], buf)
    case Take(n, v) =>
      var (out, rest) := Items(step, buf[n..]);
      (Emitted(v) + out, rest)
  }

  /** Reads arriving one after the other, starting with buf buffered. */
  function Feed<M(!new)>(step: seq<byte> -> Step<M>, buf: seq<byte>, chunks: seq<seq<byte>>): (seq<M>, seq<byte>)
    requires Steady(step)
    decreases |chunks|
  {
    if chunks == [] then ([], buf) else
    var (out, rest) := Drain(step, buf + chunks[0]);
    var (more, last) := Feed(step, rest, chunks[1..]);
    (out + more, last)
  }

  function Concat(chunks: seq<seq<byte>>): seq<byte> {
    if chunks == [] then [] else chunks[0] + Concat(chunks[1..])
  }

  /** What the loop delivers and leaves accounts for every item, even when it stops early
      and whatever arrives next. */
  lemma {:induction false} DrainLosesNothing<M(!new)>(step: seq<byte> -> Step<M>, buf: seq<byte>, next: seq<byte>)
    requires Steady(step)
    ensures var (out, rest) := Drain(step, buf);
      && Items(step, buf + next).0 == out + Items(step, rest + next).0
      && Items(step, buf + next).1 == Items(step, rest + next).1
    decreases |buf|
  {
    if step(buf).Take? {
      var n, v := step(buf).n, step(buf).verdict;
      assert step(buf + next) == step(buf);
      assert (buf + next)[n..] == buf[n..] + next;
      if !v.Stop? {
        DrainLosesNothing(step, buf[n..], next);
        var (out, rest) := Drain(step, buf[n..]);
        hide Emitted, Steady;
        SeqAssoc(Emitted(v), out, Items(step, rest + next).0);
      }
    }
  }

  /** Whatever the bytes and however they are cut: delivered items followed by those
      still in the buffer are the items of the whole stream, in order. */
  lemma {:induction false} FeedLosesNothing<M(!new)>(step: seq<byte> -> Step<M>, buf: seq<byte>, chunks: seq<seq<byte>>)
    requires Steady(step)
    ensures var (out, rest) := Feed(step, buf, chunks);
      && Items(step, buf + Concat(chunks)).0 == out + Items(step, rest).0
      && Items(step, buf + Concat(chunks)).1 == Items(step, rest).1
    decreases |chunks|
  {
    hide Steady, Items, Drain;
    if chunks == [] {
      assert buf + Concat(chunks) == buf;
      assert [] + Items(step, buf).0 == Items(step, buf).0;
    } else {
      var (out, rest) := Drain(step, buf + chunks[0]);
      var more := Concat(chunks[1..]);
      SeqAssoc(buf, chunks[0], more);
      DrainLosesNothing(step, buf + chunks[0], more);
      FeedLosesNothing(step, rest, chunks[1..]);
      var (out2, last) := Feed(step, rest, chunks[1..]);
      SeqAssoc(out, out2, Items(step, last).0);
    }
  }

  /** No complete item in buf makes the loop stop early. */
  ghost predicate Clean<M(!new)>(step: seq<byte> -> Step<M>, buf: seq<byte>)
    requires Steady(step)
    decreases |buf|
  {
    step(buf).Take? ==> !step(buf).verdict.Stop? && Clean(step, buf[step(buf).n..])
  }

  /** Without early exits the loop empties the buffer of complete items. */
  lemma {:induction false} DrainTakesAll<M(!new)>(step: seq<byte> -> Step<M>, buf: seq<byte>, next: seq<byte>)
    requires Steady(step) && Clean(step, buf + next)
    ensures Drain(step, buf) == Items(step, buf)
    ensures step(Drain(step, buf).1).Wait?
    ensures Clean(step, Drain(step, buf).1 + next)
    decreases |buf|
  {
    if step(buf).Take? {
      var n := step(buf).n;
      assert step(buf + next) == step(buf);
      assert (buf + next)[n..] == buf[n..] + next;
      DrainTakesAll(step, buf[n..], next);
    }
  }

  /** So then the result of a stream does not depend on how it is cut into reads. */
  lemma {:induction false} FeedIsChunkIndependent<M(!new)>(step: seq<byte> -> Step<M>, buf: seq<byte>, chunks: seq<seq<byte>>)
    requires Steady(step) && Clean(step, buf + Concat(chunks)) && step(buf).Wait?
    ensures Feed(step, buf, chunks) == Items(step, buf + Concat(chunks))
    ensures step(Feed(step, buf, chunks).1).Wait?
    decreases |chunks|
  {
    FeedLosesNothing(step, buf, chunks);
    FeedEndsWaiting(step, buf, chunks);
    var (out, rest) := Feed(step, buf, chunks);
    assert out + [] == out;
  }

  lemma {:induction false} FeedEndsWaiting<M(!new)>(step: seq<byte> -> Step<M>, buf: seq<byte>, chunks: seq<seq<byte>>)
    requires Steady(step) && Clean(step, buf + Concat(chunks)) && step(buf).Wait?
    ensures step(Feed(step, buf, chunks).1).Wait?
    decreases |chunks|
  {
    if chunks != [] {
      var more := Concat(chunks[1..]);
      assert buf + Concat(chunks) == (buf + chunks[0]) + more;
      DrainTakesAll(step, buf + chunks[0], more);
      FeedEndsWaiting(step, Drain(step, buf + chunks[0]).1, chunks[1..]);
    }
  }

  lemma {:induction false} DrainWait<M(!new)>(step: seq<byte> -> Step<M>, buf: seq<byte>, done: seq<M>)
    requires Steady(step) && step(buf).Wait?
    ensures Drain(step, buf) == ([], buf) && done + Drain(step, buf).0 == done
  {
  }

  lemma {:induction false} DrainTake<M(!new)>(step: seq<byte> -> Step<M>, buf: seq<byte>, done: seq<M>)
    requires Steady(step) && step(buf).Take?
    ensures var n, v := step(buf).n, step(buf).verdict;
      0 < n <= |buf| &&
      (if v.Stop? then Drain(step, buf) == ([], buf[n..]) && done + [] == done
       else Drain(step, buf).1 == Drain(step, buf[n..]).1
            && done + Drain(step, buf).0 == (done + Emitted(v)) + Drain(step, buf[n..]).0)
  {
    var n, v := step(buf).n, step(buf).verdict;
    assert 0 < n <= |buf|;
    hide Steady, Emitted;
    if !v.Stop? {
      SeqAssoc(done, Emitted(v), Drain(step, buf[n..]).0);
    }
  }

  // ---------------------------------------------------------------- encoded streams

  /** frame is one whole item with verdict v, wherever it stands in a stream. */
  ghost predicate IsFrame<M(!new)>(step: seq<byte> -> Step<M>, frame: seq<byte>, v: Verdict<M>) {
    step(frame) == Take(|frame|, v)
  }

  ghost predicate AreFrames<M(!new)>(step: seq<byte> -> Step<M>, frames: seq<seq<byte>>, vs: seq<Verdict<M>>) {
    |vs| == |frames| && forall i :: 0 <= i < |frames| ==> IsFrame(step, frames[i], vs[i])
  }

  function EmittedAll<M>(vs: seq<Verdict<M>>): seq<M> {
    if vs == [] then [] else Emitted(vs[0]) + EmittedAll(vs[1..])
  }

  lemma {:induction false} CleanFrames<M(!new)>(step: seq<byte> -> Step<M>, frames: seq<seq<byte>>, vs: seq<Verdict<M>>)
    requires Steady(step) && AreFrames(step, frames, vs) && step([]).Wait?
    requires forall i :: 0 <= i < |vs| ==> !vs[i].Stop?
    ensures Clean(step, Concat(frames))
  {
    if frames != [] {
      assert IsFrame(step, frames[0], vs[0]);
      var rest := Concat(frames[1..]);
      assert step(frames[0] + rest) == step(frames[0]);
      assert (frames[0] + rest)[|frames[0]|..] == rest;
      CleanFrames(step, frames[1..], vs[1..]);
    }
  }

  /** Frames none of which stops the loop are delivered whole, in order and without rest,
      however their bytes are cut into reads. */
  lemma {:induction false} FramesArrive<M(!new)>(step: seq<byte> -> Step<M>, frames: seq<seq<byte>>, vs: seq<Verdict<M>>, chunks: seq<seq<byte>>)
    requires Steady(step) && AreFrames(step, frames, vs) && step([]).Wait?
    requires forall i :: 0 <= i < |vs| ==> !vs[i].Stop?
    requires Concat(chunks) == Concat(frames)
    ensures Feed(step, [], chunks) == (EmittedAll(vs), [])
  {
    CleanFrames(step, frames, vs);
    assert [] + Concat(chunks) == Concat(chunks);
    FeedIsChunkIndependent(step, [], chunks);
    ItemsOfFrames(step, frames, vs);
  }

  lemma {:induction false} ItemsOfFrames<M(!new)>(step: seq<byte> -> Step<M>, frames: seq<seq<byte>>, vs: seq<Verdict<M>>)
    requires Steady(step) && AreFrames(step, frames, vs) && step([]).Wait?
    ensures Items(step, Concat(frames)) == (EmittedAll(vs), [])
  {
    if frames != [] {
      assert IsFrame(step, frames[0], vs[0]);
      var rest := Concat(frames[1..]);
      assert step(frames[0] + rest) == step(frames[0]);
      assert (frames[0] + rest)[|frames[0]|..] == rest;
      ItemsOfFrames(step, frames[1..], vs[1..]);
    }
  }

  /** p holds the first k frames and a strict prefix of the next one. */
  ghost predicate CutAt<M(!new)>(step: seq<byte> -> Step<M>, frames: seq<seq<byte>>, vs: seq<Verdict<M>>, p: seq<byte>, k: nat)
    requires Steady(step) && |vs| == |frames|
  {
    && k <= |frames|
    && Items(step, p).0 == EmittedAll(vs[..k])
    && p == Concat(frames[..k]) + Items(step, p).1
    && (if k == |frames| then Items(step, p).1 == [] else Items(step, p).1 < frames[k])
  }

  lemma {:induction false} ItemsAfterFrame<M(!new)>(step: seq<byte> -> Step<M>, f: seq<byte>, v: Verdict<M>, q: seq<byte>)
    requires Steady(step) && IsFrame(step, f, v) && f != []
    ensures Items(step, f + q) == (Emitted(v) + Items(step, q).0, Items(step, q).1)
  {
    assert step(f + q) == step(f);
    assert (f + q)[|f|..] == q;
  }

  lemma {:induction false} CutAtNext<M(!new)>(step: seq<byte> -> Step<M>, frames: seq<seq<byte>>, vs: seq<Verdict<M>>, q: seq<byte>, k: nat)
    requires Steady(step) && AreFrames(step, frames, vs) && frames != []
    requires CutAt(step, frames[1..], vs[1..], q, k)
    ensures CutAt(step, frames, vs, frames[0] + q, k + 1)
  {
    var f := frames[0];
    assert IsFrame(step, f, vs[0]) && f != [];
    hide Steady, IsFrame;
    ItemsAfterFrame(step, f, vs[0], q);
    assert vs[..k + 1][1..] == vs[1..][..k] && frames[..k + 1][1..] == frames[1..][..k];
    SeqAssoc(f, Concat(frames[1..][..k]), Items(step, q).1);
    hide Items, Emitted;
  }

  ghost predicate PrefixesWait<M(!new)>(step: seq<byte> -> Step<M>, frame: seq<byte>) {
    forall n :: 0 <= n < |frame| ==> step(frame[..n]).Wait?
  }

  /** A stream cut off anywhere: some first k frames come out and a strict prefix of the
      next one stays, if no strict prefix of a frame is mistaken for an item. */
  lemma {:induction false} ItemsOfPrefix<M(!new)>(step: seq<byte> -> Step<M>, frames: seq<seq<byte>>, vs: seq<Verdict<M>>, p: seq<byte>)
    requires Steady(step) && AreFrames(step, frames, vs) && step([]).Wait?
    requires p <= Concat(frames)
    requires forall i :: 0 <= i < |frames| ==> PrefixesWait(step, frames[i])
    ensures exists k: nat :: CutAt(step, frames, vs, p, k)
  {
    if frames == [] {
      assert CutAt(step, frames, vs, p, 0);
    } else {
      var f := frames[0];
      if |p| < |f| {
        assert PrefixesWait(step, f);
        assert p == f[..|p|];
        assert CutAt(step, frames, vs, p, 0);
      } else {
        var q := p[|f|..];
        PrefixTail(f, Concat(frames[1..]), p);
        ItemsOfPrefix(step, frames[1..], vs[1..], q);
        var k: nat :| CutAt(step, frames[1..], vs[1..], q, k);
        CutAtNext(step, frames, vs, q, k);
      }
    }
  }

  lemma {:induction false} PrefixTail<T>(f: seq<T>, r: seq<T>, p: seq<T>)
    requires p <= f + r && |f| <= |p|
    ensures p == f + p[|f|..] && p[|f|..] <= r
  {
    assert (f + r)[|f|..] == r;
    assert p == (f + r)[..|p|];
  }

  /** What a receiver has done after some of a stream of frames has arrived, cut into reads
      anyhow: the first j frames are dealt with, and the buffer holds frames j to k whole and a strict prefix q of the next.  Whole frames wait only behind one that
      stopped the loop (or, for stuck, behind one before this list). */
  ghost predicate Backlog<M>(frames: seq<seq<byte>>, vs: seq<Verdict<M>>, came: seq<byte>, fed: (seq<M>, seq<byte>),
                             j: nat, k: nat, q: seq<byte>, stuck: bool)
    requires |vs| == |frames|
  {
    && j <= k <= |frames|
    && fed.0 == EmittedAll(vs[..j])
    && fed.1 == Concat(frames[j..k]) + q
    && came == Concat(frames[..j]) + fed.1
    && (if k == |frames| then q == [] else q < frames[k])
    && (j < k ==> if j == 0 then stuck else vs[j - 1].Stop?)
  }

  ghost predicate SomeBacklog<M>(frames: seq<seq<byte>>, vs: seq<Verdict<M>>, came: seq<byte>, fed: (seq<M>, seq<byte>), stuck: bool)
    requires |vs| == |frames|
  {
    exists j: nat, k: nat, q: seq<byte> :: Backlog(frames, vs, came, fed, j, k, q, stuck)
  }

  lemma {:induction false} BacklogLoosens<M>(frames: seq<seq<byte>>, vs: seq<Verdict<M>>, came: seq<byte>, fed: (seq<M>, seq<byte>),
                                             j: nat, k: nat, q: seq<byte>, stuck: bool)
    requires |vs| == |frames| && Backlog(frames, vs, came, fed, j, k, q, false)
    ensures Backlog(frames, vs, came, fed, j, k, q, stuck)
  {
  }

  lemma {:induction false} BacklogLater<M>(f: seq<byte>, v: Verdict<M>, frames: seq<seq<byte>>, vs: seq<Verdict<M>>,
                                           came: seq<byte>, fed: (seq<M>, seq<byte>), j: nat, k: nat, q: seq<byte>, stuck: bool)
    requires |vs| == |frames| && Backlog(frames, vs, came, fed, j, k, q, v.Stop?)
    ensures Backlog([f] + frames, [v] + vs, f + came, (Emitted(v) + fed.0, fed.1), j + 1, k + 1, q, stuck)
  {
    var frames', vs' := [f] + frames, [v] + vs;
    assert frames'[j + 1..k + 1] == frames[j..k];
    assert frames'[..j + 1] == [f] + frames[..j] && vs'[..j + 1] == [v] + vs[..j];
    assert vs'[..j + 1][1..] == vs[..j] && frames'[..j + 1][1..] == frames[..j];
    SeqAssoc(f, Concat(frames[..j]), fed.1);
    hide Emitted;
  }

  /** A frame that stops the loop: what came behind it stays. */
  lemma {:induction false} BehindStop<M(!new)>(step: seq<byte> -> Step<M>, f: seq<byte>, v: Verdict<M>, frames: seq<seq<byte>>,
                                               vs: seq<Verdict<M>>, r: seq<byte>)
    requires Steady(step) && AreFrames(step, frames, vs) && step([]).Wait? && v.Stop? && r <= Concat(frames)
    requires forall i :: 0 <= i < |frames| ==> PrefixesWait(step, frames[i])
    ensures SomeBacklog([f] + frames, [v] + vs, f + r, ([], r), false)
  {
    ItemsOfPrefix(step, frames, vs, r);
    var k: nat :| CutAt(step, frames, vs, r, k);
    var q := Items(step, r).1;
    assert frames[0..k] == frames[..k];
    assert Backlog(frames, vs, r, ([], r), 0, k, q, true);
    hide Steady, AreFrames, PrefixesWait, CutAt, Items, Backlog;
    BacklogLater(f, v, frames, vs, r, ([], r), 0, k, q, false);
    assert Emitted(v) + [] == [];
  }

  lemma {:induction false} BehindFrame<M>(f: seq<byte>, v: Verdict<M>, frames: seq<seq<byte>>, vs: seq<Verdict<M>>,
                                          r: seq<byte>, fed: (seq<M>, seq<byte>))
    requires |vs| == |frames| && SomeBacklog(frames, vs, r, fed, false)
    ensures SomeBacklog([f] + frames, [v] + vs, f + r, (Emitted(v) + fed.0, fed.1), false)
  {
    var j: nat, k: nat, q :| Backlog(frames, vs, r, fed, j, k, q, false);
    BacklogLoosens(frames, vs, r, fed, j, k, q, v.Stop?);
    hide Backlog;
    BacklogLater(f, v, frames, vs, r, fed, j, k, q, false);
  }

  /** One read of part of a stream of frames. */
  lemma {:induction false} DrainBacklog<M(!new)>(step: seq<byte> -> Step<M>, frames: seq<seq<byte>>, vs: seq<Verdict<M>>, p: seq<byte>)
    requires Steady(step) && AreFrames(step, frames, vs) && step([]).Wait? && p <= Concat(frames)
    requires forall i :: 0 <= i < |frames| ==> PrefixesWait(step, frames[i])
    ensures SomeBacklog(frames, vs, p, Drain(step, p), false)
    decreases |frames|
  {
    if frames == [] {
      assert Backlog(frames, vs, p, Drain(step, p), 0, 0, [], false);
    } else if |p| < |frames[0]| {
      assert PrefixesWait(step, frames[0]) && p == frames[0][..|p|];
      assert Backlog(frames, vs, p, Drain(step, p), 0, 0, p, false);
    } else {
      var f, v, r := frames[0], vs[0], p[|frames[0]|..];
      PrefixTail(f, Concat(frames[1..]), p);
      assert IsFrame(step, f, v) && step(f + r) == step(f) && (f + r)[|f|..] == r;
      assert frames == [f] + frames[1..] && vs == [v] + vs[1..];
      hide Backlog, SomeBacklog, PrefixesWait;
      if v.Stop? {
        BehindStop(step, f, v, frames[1..], vs[1..], r);
      } else {
        DrainBacklog(step, frames[1..], vs[1..], r);
        BehindFrame(f, v, frames[1..], vs[1..], r, Drain(step, r));
      }
    }
  }

  /** Reads that follow each other: what the first leaves, the next goes on from. */
  lemma {:induction false} BacklogJoins<M>(frames: seq<seq<byte>>, vs: seq<Verdict<M>>, came: seq<byte>, more: seq<byte>,
                                           fed: (seq<M>, seq<byte>), fed': (seq<M>, seq<byte>),
                                           j: nat, k: nat, q: seq<byte>, j': nat, k': nat, q': seq<byte>)
    requires |vs| == |frames| && Backlog(frames, vs, came, fed, j, k, q, false)
    requires Backlog(frames[j..], vs[j..], fed.1 + more, fed', j', k', q', j < k)
    ensures Backlog(frames, vs, came + more, (fed.0 + fed'.0, fed'.1), j + j', j + k', q', false)
  {
    assert frames[j..][j'..k'] == frames[j + j'..j + k'];
    assert frames[..j + j'] == frames[..j] + frames[j..][..j'];
    assert vs[..j + j'] == vs[..j] + vs[j..][..j'];
    ConcatBoth(frames[..j], frames[j..][..j']);
    EmittedBoth(vs[..j], vs[j..][..j']);
    SeqAssoc(Concat(frames[..j]), fed.1, more);
    SeqAssoc(Concat(frames[..j]), Concat(frames[j..][..j']), fed'.1);
    hide Concat, EmittedAll;
  }

  lemma {:induction false} ConcatBoth(a: seq<seq<byte>>, b: seq<seq<byte>>)
    ensures Concat(a + b) == Concat(a) + Concat(b)
  {
    if a == [] {
      assert a + b == b;
    } else {
      assert (a + b)[1..] == a[1..] + b;
      ConcatBoth(a[1..], b);
      SeqAssoc(a[0], Concat(a[1..]), Concat(b));
    }
  }

  lemma {:induction false} EmittedBoth<M>(a: seq<Verdict<M>>, b: seq<Verdict<M>>)
    ensures EmittedAll(a + b) == EmittedAll(a) + EmittedAll(b)
  {
    if a == [] {
      assert a + b == b;
    } else {
      assert (a + b)[1..] == a[1..] + b;
      EmittedBoth(a[1..], b);
      SeqAssoc(Emitted(a[0]), EmittedAll(a[1..]), EmittedAll(b));
    }
  }

  lemma {:induction false} FeedNext<M(!new)>(step: seq<byte> -> Step<M>, buf: seq<byte>, chunks: seq<seq<byte>>)
    requires Steady(step) && chunks != []
    ensures var (out, rest) := Drain(step, buf + chunks[0]);
      Feed(step, buf, chunks) == (out + Feed(step, rest, chunks[1..]).0, Feed(step, rest, chunks[1..]).1)
    ensures buf + Concat(chunks) == (buf + chunks[0]) + Concat(chunks[1..])
  {
    hide Steady, Drain;
    SeqAssoc(buf, chunks[0], Concat(chunks[1..]));
  }

  /** Frames none of which has a strict prefix that is mistaken for an item. */
  ghost predicate Framed<M(!new)>(step: seq<byte> -> Step<M>, frames: seq<seq<byte>>, vs: seq<Verdict<M>>) {
    AreFrames(step, frames, vs) && step([]).Wait? && forall i :: 0 <= i < |frames| ==> PrefixesWait(step, frames[i])
  }

  lemma {:induction false} SuffixFrames<M(!new)>(step: seq<byte> -> Step<M>, frames: seq<seq<byte>>, vs: seq<Verdict<M>>, j: nat)
    requires Framed(step, frames, vs) && j <= |frames|
    ensures Framed(step, frames[j..], vs[j..])
  {
    hide PrefixesWait, IsFrame;
    assert forall i :: 0 <= i < |frames[j..]| ==> frames[j..][i] == frames[j + i] && vs[j..][i] == vs[j + i];
  }

  predicate Part<T(==)>(p: seq<T>, whole: seq<T>) {
    p <= whole
  }

  /** The first j frames are dealt with; behind says whether one of them stopped the loop
      with whole frames behind it. */
  ghost predicate Dealt<M>(frames: seq<seq<byte>>, vs: seq<Verdict<M>>, came: seq<byte>, fed: (seq<M>, seq<byte>), j: nat, behind: bool)
    requires |vs| == |frames|
  {
    exists k: nat, q: seq<byte> :: Backlog(frames, vs, came, fed, j, k, q, false) && behind == (j < k)
  }

  /** What is buffered starts the frames that are left. */
  ghost predicate Waiting<M>(frames: seq<seq<byte>>, vs: seq<Verdict<M>>, buf: seq<byte>, stuck: bool)
    requires |vs| == |frames|
  {
    exists k: nat, q: seq<byte> :: Backlog(frames, vs, buf, ([], buf), 0, k, q, stuck)
  }

  lemma {:induction false} BacklogThen<M>(frames: seq<seq<byte>>, vs: seq<Verdict<M>>, came: seq<byte>, more: seq<byte>,
                                          fed: (seq<M>, seq<byte>), fed': (seq<M>, seq<byte>), j: nat, behind: bool, stuck: bool)
    requires |vs| == |frames| && j <= |frames| && Dealt(frames, vs, came, fed, j, behind)
    requires SomeBacklog(frames[j..], vs[j..], fed.1 + more, fed', behind)
    ensures SomeBacklog(frames, vs, came + more, (fed.0 + fed'.0, fed'.1), stuck)
  {
    var k: nat, q :| Backlog(frames, vs, came, fed, j, k, q, false) && behind == (j < k);
    var j': nat, k': nat, q' :| Backlog(frames[j..], vs[j..], fed.1 + more, fed', j', k', q', behind);
    hide Backlog;
    BacklogJoins(frames, vs, came, more, fed, fed', j, k, q, j', k', q');
    BacklogLoosens(frames, vs, came + more, (fed.0 + fed'.0, fed'.1), j + j', j + k', q', stuck);
  }

  /** One read, and what it leaves for the next. */
  lemma {:induction false} ReadOnce<M(!new)>(step: seq<byte> -> Step<M>, frames: seq<seq<byte>>, vs: seq<Verdict<M>>, b: seq<byte>, more: seq<byte>)
    returns (j: nat, behind: bool)
    requires Steady(step) && Framed(step, frames, vs) && Part(b + more, Concat(frames))
    ensures |vs| == |frames| && j <= |frames| && Framed(step, frames[j..], vs[j..])
    ensures Dealt(frames, vs, b, Drain(step, b), j, behind)
    ensures Waiting(frames[j..], vs[j..], Drain(step, b).1, behind)
    ensures Part(Drain(step, b).1 + more, Concat(frames[j..]))
  {
    PrefixOfPrefix(b, more, Concat(frames));
    DrainBacklog(step, frames, vs, b);
    var k: nat, q;
    j, k, q :| Backlog(frames, vs, b, Drain(step, b), j, k, q, false);
    behind := j < k;
    assert j <= k <= |frames|;
    SuffixFrames(step, frames, vs, j);
    hide Backlog, Framed, Drain, Concat, Steady, Part;
    RestFollows(frames, vs, b, more, Drain(step, b), j, k, q);
  }

  lemma {:induction false} FeedNone<M(!new)>(step: seq<byte> -> Step<M>, frames: seq<seq<byte>>, vs: seq<Verdict<M>>,
                                             buf: seq<byte>, stuck: bool)
    requires Steady(step) && |vs| == |frames| && Waiting(frames, vs, buf, stuck)
    ensures SomeBacklog(frames, vs, buf + Concat([]), Feed(step, buf, []), stuck)
  {
    hide Backlog, Steady;
    assert buf + Concat([]) == buf;
  }

  /** Any frames, any reads. */
  lemma {:induction false} FeedBacklog<M(!new)>(step: seq<byte> -> Step<M>, frames: seq<seq<byte>>, vs: seq<Verdict<M>>,
                                                buf: seq<byte>, stuck: bool, chunks: seq<seq<byte>>)
    requires Steady(step) && Framed(step, frames, vs) && |vs| == |frames| && Waiting(frames, vs, buf, stuck)
    requires Part(buf + Concat(chunks), Concat(frames))
    ensures SomeBacklog(frames, vs, buf + Concat(chunks), Feed(step, buf, chunks), stuck)
    decreases |chunks|
  {
    hide *;
    if chunks == [] {
      FeedNone(step, frames, vs, buf, stuck);
    } else {
      FeedNext(step, buf, chunks);
      var b, more := buf + chunks[0], Concat(chunks[1..]);
      var j, behind := ReadOnce(step, frames, vs, b, more);
      var fed := Drain(step, b);
      FeedBacklog(step, frames[j..], vs[j..], fed.1, behind, chunks[1..]);
      BacklogThen(frames, vs, b, more, fed, Feed(step, fed.1, chunks[1..]), j, behind, stuck);
    }
  }

  /** What a receiver has done when no frame stops its loop: the first k frames are dealt
      with and a strict prefix of the next is buffered. */
  ghost predicate FedTo<M>(frames: seq<seq<byte>>, vs: seq<Verdict<M>>, came: seq<byte>, fed: (seq<M>, seq<byte>), k: nat)
    requires |vs| == |frames|
  {
    && k <= |frames|
    && fed.0 == EmittedAll(vs[..k])
    && came == Concat(frames[..k]) + fed.1
    && (if k == |frames| then fed.1 == [] else fed.1 < frames[k])
  }

  lemma {:induction false} PrefixArrives<M(!new)>(step: seq<byte> -> Step<M>, frames: seq<seq<byte>>, vs: seq<Verdict<M>>, chunks: seq<seq<byte>>)
    requires Steady(step) && Framed(step, frames, vs) && Concat(chunks) <= Concat(frames)
    ensures SomeBacklog(frames, vs, Concat(chunks), Feed(step, [], chunks), false)
    ensures (forall i :: 0 <= i < |frames| ==> !vs[i].Stop?) ==>
      exists k: nat :: FedTo(frames, vs, Concat(chunks), Feed(step, [], chunks), k)
  {
    assert |vs| == |frames| && [] + Concat(chunks) == Concat(chunks);
    forall i | 0 <= i < |frames| ensures frames[i] != [] {
      assert IsFrame(step, frames[i], vs[i]);
    }
    hide Framed, AreFrames, PrefixesWait, Steady, Feed;
    NothingYet(frames, vs);
    FeedBacklog(step, frames, vs, [], false, chunks);
    if forall i :: 0 <= i < |frames| ==> !vs[i].Stop? {
      NothingWhole(frames, vs, Concat(chunks), Feed(step, [], chunks));
    }
  }

  lemma {:induction false} NothingYet<M>(frames: seq<seq<byte>>, vs: seq<Verdict<M>>)
    requires |vs| == |frames| && forall i :: 0 <= i < |frames| ==> frames[i] != []
    ensures Backlog(frames, vs, [], ([], []), 0, 0, [], false)
  {
  }

  lemma {:induction false} NothingWhole<M>(frames: seq<seq<byte>>, vs: seq<Verdict<M>>, came: seq<byte>, fed: (seq<M>, seq<byte>))
    requires |vs| == |frames| && SomeBacklog(frames, vs, came, fed, false)
    requires forall i :: 0 <= i < |frames| ==> !vs[i].Stop?
    ensures exists k: nat :: FedTo(frames, vs, came, fed, k)
  {
    var j: nat, k: nat, q :| Backlog(frames, vs, came, fed, j, k, q, false);
    assert j == k && frames[j..k] == [];
    assert FedTo(frames, vs, came, fed, k);
  }

  lemma {:induction false} PrefixOfPrefix<T>(a: seq<T>, b: seq<T>, c: seq<T>)
    requires a + b <= c
    ensures a <= c
  {
    assert a == (a + b)[..|a|];
  }

  /** What is buffered and yet to come is part of the frames that are left. */
  lemma {:induction false} RestFollows<M>(frames: seq<seq<byte>>, vs: seq<Verdict<M>>, came: seq<byte>, more: seq<byte>,
                                          fed: (seq<M>, seq<byte>), j: nat, k: nat, q: seq<byte>)
    requires |vs| == |frames| && Backlog(frames, vs, came, fed, j, k, q, false) && Part(came + more, Concat(frames))
    ensures Part(fed.1 + more, Concat(frames[j..]))
    ensures Backlog(frames[j..], vs[j..], fed.1, ([], fed.1), 0, k - j, q, j < k)
  {
    assert frames == frames[..j] + frames[j..];
    ConcatBoth(frames[..j], frames[j..]);
    SeqAssoc(Concat(frames[..j]), fed.1, more);
    assert Concat(frames[..j]) + (fed.1 + more) <= Concat(frames[..j]) + Concat(frames[j..]);
    PrefixTail(Concat(frames[..j]), Concat(frames[j..]), Concat(frames[..j]) + (fed.1 + more));
    assert (Concat(frames[..j]) + (fed.1 + more))[|Concat(frames[..j])|..] == fed.1 + more;
    assert frames[j..][0..k - j] == frames[j..k];
    assert frames[j..][..0] == [] && vs[j..][..0] == [];
    assert Concat(frames[j..][..0]) + fed.1 == fed.1;
    assert k < |frames| ==> frames[j..][k - j] == frames[k];
  }

  /** One read of whole frames leaves nothing behind exactly when no frame before the
      last makes the loop stop; what it leaves is then lost to nobody, only late. */
  lemma {:induction false} DrainEmptiesIff<M(!new)>(step: seq<byte> -> Step<M>, frames: seq<seq<byte>>, vs: seq<Verdict<M>>)
    requires Steady(step) && AreFrames(step, frames, vs) && step([]).Wait?
    ensures Drain(step, Concat(frames)).1 == [] <==> forall i :: 0 <= i < |frames| - 1 ==> !vs[i].Stop?
  {
    if frames != [] {
      var f := frames[0];
      var rest := Concat(frames[1..]);
      assert IsFrame(step, f, vs[0]);
      assert step(f + rest) == step(f);
      assert (f + rest)[|f|..] == rest;
      DrainEmptiesIff(step, frames[1..], vs[1..]);
      assert forall i :: 0 <= i < |vs[1..]| ==> vs[1..][i] == vs[i + 1];
      if vs[0].Stop? {
        if |frames| > 1 {
          assert IsFrame(step, frames[1], vs[1]);
          assert rest == frames[1] + Concat(frames[1..][1..]);
        }
      } else {
        LaterStops(vs);
      }
    }
  }

  lemma {:induction false} LaterStops<M>(vs: seq<Verdict<M>>)
    requires vs != [] && !vs[0].Stop?
    ensures (forall i :: 0 <= i < |vs| - 1 ==> !vs[i].Stop?) <==> (forall i :: 0 <= i < |vs[1..]| - 1 ==> !vs[1..][i].Stop?)
  {
    if forall i :: 0 <= i < |vs[1..]| - 1 ==> !vs[1..][i].Stop? {
      forall i | 0 <= i < |vs| - 1
        ensures !vs[i].Stop?
      {
        if i > 0 { assert vs[1..][i - 1] == vs[i]; }
      }
    }
  }
}
