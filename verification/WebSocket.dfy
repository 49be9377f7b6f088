/** WebSocketClient: an incremental reader of server frames and a writer of masked client
    frames, against the frame format of RFC 6455 (sections 5.2 and 5.3). */
module WebSocket {
  import opened Lists
  import opened Wrappers
  import opened Streams

  // ---------------------------------------------------------------- bytes

  /** Bitwise exclusive or. */
  function Xor(a: nat, b: nat): nat
    decreases a + b
  {
    if a == 0 && b == 0 then 0 else (a + b) % 2 + 2 * Xor(a / 2, b / 2)
  }

  lemma {:induction false} Halves(p: nat, q: nat)
    requires p < 2
    ensures (p + 2 * q) % 2 == p && (p + 2 * q) / 2 == q
  {
  }

  lemma {:induction false} XorParts(a: nat, b: nat)
    ensures Xor(a, b) % 2 == (a + b) % 2 && Xor(a, b) / 2 == Xor(a / 2, b / 2)
  {
    var p, q := (a + b) % 2, Xor(a / 2, b / 2);
    assert Xor(a, b) == p + 2 * q;
    hide Xor;
    Halves(p, q);
  }

  lemma {:induction false} Parity(x: nat, y: nat, a: nat, b: nat)
    requires x % 2 == (a + b) % 2 && y % 2 == (x + b) % 2 && y / 2 == a / 2
    ensures y == a
  {
    assert (a + b + b) % 2 == a % 2;
  }

  lemma {:induction false} XorTwice(a: nat, b: nat)
    ensures Xor(Xor(a, b), b) == a
    decreases a + b
  {
    if a == 0 && b == 0 {
    } else {
      hide Xor;
      var x := Xor(a, b);
      XorTwice(a / 2, b / 2);
      XorParts(a, b);
      XorParts(x, b);
      Parity(x, Xor(x, b), a, b);
    }
  }

  /** Bit k of a number. */
  predicate Bit(x: nat, k: nat) {
    if k == 0 then x % 2 == 1 else Bit(x / 2, k - 1)
  }

  /** A bit of the result is set exactly when one of the two is. */
  lemma {:induction false} XorBits(a: nat, b: nat, k: nat)
    ensures Bit(Xor(a, b), k) <==> Bit(a, k) != Bit(b, k)
    decreases k
  {
    XorParts(a, b);
    hide Xor;
    if k > 0 { XorBits(a / 2, b / 2, k - 1); }
  }

  lemma {:induction false} XorBound(a: nat, b: nat, k: nat, bound: nat)
    requires a < bound && b < bound && bound == Power2(k)
    ensures Xor(a, b) < bound
    decreases k
  {
    if k > 0 && (a != 0 || b != 0) {
      var half := Power2(k - 1);
      Halved(a, half);
      Halved(b, half);
      XorParts(a, b);
      hide Xor;
      XorBound(a / 2, b / 2, k - 1, half);
      Doubled(Xor(a, b), half);
    }
  }

  lemma {:induction false} Halved(a: nat, half: nat)
    requires a < 2 * half
    ensures a / 2 < half
  {
  }

  lemma {:induction false} Doubled(x: nat, half: nat)
    requires x / 2 < half
    ensures x < 2 * half
  {
  }

  function Power2(k: nat): nat {
    if k == 0 then 1 else 2 * Power2(k - 1)
  }

  function XorByte(a: byte, b: byte): byte {
    assert Power2(8) == 256;
    XorBound(a as nat, b as nat, 8, 256);
    Xor(a as nat, b as nat) as byte
  }

  function Be16(n: nat): seq<byte> {
    [(n / 256 % 256) as byte, (n % 256) as byte]
  }

  function ReadBe16(b: seq<byte>): nat
    requires |b| >= 2
  {
    b[0] as int * 256 + b[1] as int
  }

  // ---------------------------------------------------------------- reading

  /** One round of the parse loop in handleDataRead.  The mask bit of a server frame is
      not honoured: only the workaround for 0x89 0x81 looks at it. */
  function FrameStep(b: seq<byte>): Step<seq<byte>> {
    if |b| < 2 then Wait else
    var opcode, size7, mask := b[0] % 16, b[1] % 128, b[1] >= 128;
    if size7 == 126 && |b| < 4 then Wait else
    var size16 := if size7 == 126 then ReadBe16(b[2..4]) else 0;
    var header := if size7 == 126 then 4 else 2;
    if opcode == 9 && mask && size7 == 1 then Take(1, Skip) else
    var size := if size16 == 0 then size7 as nat else size16;
    if |b| >= size + header then Take(size + header, Deliver(b[header..header + size])) else Wait
  }

  /** A length code below 126, or 127 taken as it stands: whatever the mask bit says, so many
      bytes follow, unmasked, and nothing is taken before the last of them is there. */
  lemma {:induction false} ShortFrameIff(b0: byte, b1: byte, payload: seq<byte>)
    requires b1 % 128 != 126 && !(b0 % 16 == 9 && b1 == 0x81)
    ensures IsFrame(FrameStep, [b0, b1] + payload, Deliver(payload)) <==> |payload| == b1 % 128
    ensures |payload| == b1 % 128 ==> PrefixesWait(FrameStep, [b0, b1] + payload)
  {
    var f := [b0, b1] + payload;
    if |payload| == b1 % 128 { assert f[2..2 + |payload|] == payload; }
  }

  /** Length code 126: the two bytes after it count the payload, and 0 counts as 126. */
  lemma {:induction false} LongFrameIff(b0: byte, b1: byte, size: seq<byte>, payload: seq<byte>)
    requires b1 % 128 == 126 && |size| == 2
    ensures IsFrame(FrameStep, [b0, b1] + size + payload, Deliver(payload))
      <==> |payload| == if Big(size) == 0 then 126 else Big(size)
    ensures |payload| == (if Big(size) == 0 then 126 else Big(size)) ==> PrefixesWait(FrameStep, [b0, b1] + size + payload)
  {
    var f := [b0, b1] + size + payload;
    assert f[2..4] == size && size == [] + [size[0]] + [size[1]];
    BigOfPair(size[0], size[1]);
    hide Big;
    assert ReadBe16(size) == Big(size);
    forall n | 4 <= n <= |f| ensures f[..n][2..4] == size {
    }
    if |payload| == (if Big(size) == 0 then 126 else Big(size)) { assert f[4..4 + |payload|] == payload; }
  }

  /** A masked one-byte ping is taken for a stray byte in front of a text frame: one byte goes. */
  lemma {:induction false} StrayPing(b0: byte, rest: seq<byte>)
    requires b0 % 16 == 9
    ensures FrameStep([b0, 0x81] + rest) == Take(1, Skip)
  {
    var f := [b0, 0x81] + rest;
    assert f[0] == b0 && f[1] == 0x81;
  }

  lemma {:induction false} FrameStepKeeps(a: seq<byte>, b: seq<byte>)
    requires FrameStep(a).Take?
    ensures FrameStep(a + b) == FrameStep(a)
  {
    if |a| >= 4 { assert (a + b)[2..4] == a[2..4]; }
    if FrameStep(a).verdict.Deliver? {
      var header := if a[1] % 128 == 126 then 4 else 2;
      var n := FrameStep(a).n;
      assert (a + b)[header..n] == a[header..n];
    }
  }

  lemma {:induction false} FramesSteady()
    ensures Steady(FrameStep) && FrameStep([]).Wait?
  {
    forall a, b | FrameStep(a).Take?
      ensures FrameStep(a + b) == FrameStep(a)
    {
      FrameStepKeeps(a, b);
    }
  }

  /** The frames loop never gives up, so its result never depends on the reads. */
  lemma {:induction false} FramesClean(b: seq<byte>)
    ensures Steady(FrameStep) && Clean(FrameStep, b)
    decreases |b|
  {
    FramesSteady();
    if FrameStep(b).Take? { FramesClean(b[FrameStep(b).n..]); }
  }

  const BLANK_LINE: seq<byte> := [13, 10, 13, 10]

  /** Where the first blank line of the HTTP answer ends, or 0 if it has not come yet. */
  function BlankEnd(b: seq<byte>): (e: nat)
    ensures e <= |b|
  {
    if |b| < 4 then 0
    else if b[..4] == BLANK_LINE then 4
    else var e := BlankEnd(b[1..]); if e == 0 then 0 else e + 1
  }

  /** It is the end of a blank line, and no blank line ends earlier. */
  lemma {:induction false} BlankEndIsFirst(b: seq<byte>, i: nat)
    requires i + 4 <= |b|
    ensures i + 4 == BlankEnd(b) ==> b[i..i + 4] == BLANK_LINE
    ensures b[i..i + 4] == BLANK_LINE ==> 0 < BlankEnd(b) <= i + 4
    decreases i
  {
    if b[..4] == BLANK_LINE {
    } else if i > 0 {
      assert b[1..][i - 1..i + 3] == b[i..i + 4];
      BlankEndIsFirst(b[1..], i - 1);
    } else {
      BlankEndPast(b[1..]);
    }
  }

  lemma {:induction false} BlankEndPast(b: seq<byte>)
    ensures BlankEnd(b) == 0 || BlankEnd(b) >= 4
  {
    if |b| >= 4 && b[..4] != BLANK_LINE { BlankEndPast(b[1..]); }
  }

  /** A position found i bytes into the buffer, seen from its start. */
  function Shift(i: nat, e: nat): nat {
    if e == 0 then 0 else i + e
  }

  lemma {:induction false} BlankEndNext(b: seq<byte>, i: nat)
    requires i + 4 <= |b|
    ensures BlankEnd(b[i..]) == if b[i..i + 4] == BLANK_LINE then 4 else Shift(1, BlankEnd(b[i + 1..]))
  {
    assert b[i..][..4] == b[i..i + 4];
    assert b[i..][1..] == b[i + 1..];
  }

  lemma {:induction false} BlankEndKeeps(a: seq<byte>, b: seq<byte>)
    requires BlankEnd(a) != 0
    ensures BlankEnd(a + b) == BlankEnd(a)
  {
    assert (a + b)[..4] == a[..4];
    if a[..4] != BLANK_LINE {
      assert (a + b)[1..] == a[1..] + b;
      BlankEndKeeps(a[1..], b);
    }
  }

  datatype Reader = Reader(upgraded: bool, buffer: seq<byte>)

  /** One handleDataRead. */
  function Read(r: Reader, chunk: seq<byte>): (seq<seq<byte>>, Reader)
    requires Steady(FrameStep)
  {
    var b := r.buffer + chunk;
    if !r.upgraded && BlankEnd(b) == 0 then ([], Reader(false, b)) else
    var (out, rest) := Drain(FrameStep, if r.upgraded then b else b[BlankEnd(b)..]);
    (out, Reader(true, rest))
  }

  function ReadAll(r: Reader, chunks: seq<seq<byte>>): (seq<seq<byte>>, Reader)
    requires Steady(FrameStep)
    decreases |chunks|
  {
    if chunks == [] then ([], r) else
    var (out, r1) := Read(r, chunks[0]);
    var (more, r2) := ReadAll(r1, chunks[1..]);
    (out + more, r2)
  }

  lemma {:induction false} UpgradedReadsFrames(buf: seq<byte>, chunks: seq<seq<byte>>)
    requires Steady(FrameStep)
    ensures var (out, rest) := Feed(FrameStep, buf, chunks);
      ReadAll(Reader(true, buf), chunks) == (out, Reader(true, rest))
    decreases |chunks|
  {
    if chunks != [] {
      UpgradedReadsFrames(Drain(FrameStep, buf + chunks[0]).1, chunks[1..]);
    }
    hide Steady, Drain;
  }

  /** For any bytes at all: what is delivered depends only on the concatenation of the
      reads, never on how the stream is cut. */
  lemma {:induction false} ReadingIsChunkIndependent(buf: seq<byte>, chunks: seq<seq<byte>>)
    requires BlankEnd(buf) == 0
    ensures Steady(FrameStep)
    ensures var b := buf + Concat(chunks);
      ReadAll(Reader(false, buf), chunks) ==
        if BlankEnd(b) == 0 then ([], Reader(false, b))
        else var (out, rest) := Items(FrameStep, b[BlankEnd(b)..]); (out, Reader(true, rest))
    decreases |chunks|
  {
    FramesSteady();
    if chunks == [] {
      assert buf + Concat(chunks) == buf;
    } else {
      var b, more := buf + chunks[0], Concat(chunks[1..]);
      SeqAssoc(buf, chunks[0], more);
      if BlankEnd(b) == 0 {
        ReadingIsChunkIndependent(b, chunks[1..]);
        assert [] + ReadAll(Reader(false, b), chunks[1..]).0 == ReadAll(Reader(false, b), chunks[1..]).0;
      } else {
        BlankEndKeeps(b, more);
        FirstFrames(b, chunks[1..]);
        assert Read(Reader(false, buf), chunks[0]).0 == Drain(FrameStep, b[BlankEnd(b)..]).0;
      }
    }
    hide Steady, Items, Drain, Feed, BlankEnd;
  }

  /** The read that completes the HTTP answer already starts delivering frames. */
  lemma {:induction false} FirstFrames(b: seq<byte>, chunks: seq<seq<byte>>)
    requires Steady(FrameStep) && BlankEnd(b) != 0
    ensures var (out, rest) := Drain(FrameStep, b[BlankEnd(b)..]);
      var (more, r) := ReadAll(Reader(true, rest), chunks);
      var (all, last) := Items(FrameStep, (b + Concat(chunks))[BlankEnd(b)..]);
      out + more == all && r == Reader(true, last)
  {
    hide BlankEnd, FrameStep;
    var e := BlankEnd(b);
    assert (b + Concat(chunks))[e..] == b[e..] + Concat(chunks);
    LaterFrames(b[e..], chunks);
    hide Steady, Drain, Items, ReadAll;
  }

  lemma {:induction false} LaterFrames(body: seq<byte>, chunks: seq<seq<byte>>)
    requires Steady(FrameStep)
    ensures var (out, rest) := Drain(FrameStep, body);
      var (more, r) := ReadAll(Reader(true, rest), chunks);
      var (all, last) := Items(FrameStep, body + Concat(chunks));
      out + more == all && r == Reader(true, last)
  {
    hide Steady, Drain, Items, Feed, FrameStep, ReadAll, Clean;
    FramesClean(body + Concat(chunks));
    DrainTakesAll(FrameStep, body, Concat(chunks));
    DrainLosesNothing(FrameStep, body, Concat(chunks));
    var rest := Drain(FrameStep, body).1;
    FeedIsChunkIndependent(FrameStep, rest, chunks);
    UpgradedReadsFrames(rest, chunks);
  }

  // ---------------------------------------------------------------- well-formed streams

  /** An unmasked frame in the shortest encoding, as a server must send it. */
  function ServerFrame(b0: byte, payload: seq<byte>): seq<byte>
    requires |payload| <= 65535
  {
    if |payload| <= 125 then [b0, |payload| as byte] + payload
    else [b0, 126] + Be16(|payload|) + payload
  }

  lemma {:induction false} ServerFrameStep(b0: byte, payload: seq<byte>)
    requires |payload| <= 65535
    ensures IsFrame(FrameStep, ServerFrame(b0, payload), Deliver(payload))
  {
    var f := ServerFrame(b0, payload);
    if |payload| <= 125 {
      assert f[2..2 + |payload|] == payload;
    } else {
      assert f[2..4] == Be16(|payload|);
      assert f[4..4 + |payload|] == payload;
    }
  }

  /** With the two-byte length the reader takes a frame whole unless that length is 0,
      which it mistakes for 126; the shortest encoding never does this. */
  lemma {:induction false} LongFormReadIff(b0: byte, payload: seq<byte>)
    requires |payload| <= 65535
    ensures IsFrame(FrameStep, [b0, 126] + Be16(|payload|) + payload, Deliver(payload)) <==> payload != []
  {
    var f := [b0, 126] + Be16(|payload|) + payload;
    assert f[2..4] == Be16(|payload|);
    if payload != [] { assert f[4..4 + |payload|] == payload; }
  }

  function ServerFrames(b0s: seq<byte>, payloads: seq<seq<byte>>): seq<seq<byte>>
    requires |b0s| == |payloads| && forall i :: 0 <= i < |payloads| ==> |payloads[i]| <= 65535
  {
    seq(|payloads|, i requires 0 <= i < |payloads| => ServerFrame(b0s[i], payloads[i]))
  }

  function DeliverAll(payloads: seq<seq<byte>>): seq<Verdict<seq<byte>>> {
    seq(|payloads|, i requires 0 <= i < |payloads| => Deliver(payloads[i]))
  }

  lemma {:induction false} EmittedPayloads(payloads: seq<seq<byte>>)
    ensures EmittedAll(DeliverAll(payloads)) == payloads
  {
    if payloads != [] {
      assert DeliverAll(payloads)[1..] == DeliverAll(payloads[1..]);
      EmittedPayloads(payloads[1..]);
    }
  }

  /** An HTTP answer up to its first blank line and then well-formed frames, cut anyhow:
      exactly the payloads are delivered, in order, and nothing stays buffered. */
  lemma {:induction false} WellFormedStreamIsDelivered(http: seq<byte>, b0s: seq<byte>, payloads: seq<seq<byte>>, chunks: seq<seq<byte>>)
    requires http != [] && BlankEnd(http) == |http|
    requires |b0s| == |payloads| && forall i :: 0 <= i < |payloads| ==> |payloads[i]| <= 65535
    requires Concat(chunks) == http + Concat(ServerFrames(b0s, payloads))
    ensures Steady(FrameStep)
    ensures ReadAll(Reader(false, []), chunks) == (payloads, Reader(true, []))
  {
    FramesSteady();
    var frames, vs := ServerFrames(b0s, payloads), DeliverAll(payloads);
    forall i | 0 <= i < |frames|
      ensures IsFrame(FrameStep, frames[i], vs[i])
    {
      ServerFrameStep(b0s[i], payloads[i]);
    }
    var body := Concat(frames);
    ReadingIsChunkIndependent([], chunks);
    assert [] + Concat(chunks) == http + body;
    BlankEndKeeps(http, body);
    assert (http + body)[|http|..] == body;
    ItemsOfFrames(FrameStep, frames, vs);
    EmittedPayloads(payloads);
    hide Steady, BlankEnd, ReadAll, Items;
  }

  // ---------------------------------------------------------------- writing

  const MASK: seq<byte> := [0x11, 0x22, 0x33, 0x44]

  function Masked(key: seq<byte>, data: seq<byte>): seq<byte>
    requires |key| == 4
  {
    seq(|data|, i requires 0 <= i < |data| => XorByte(data[i], key[i % 4]))
  }

  /** Byte i is combined bit by bit with byte i modulo 4 of the key. */
  lemma {:induction false} MaskedBits(key: seq<byte>, data: seq<byte>, i: nat, k: nat)
    requires |key| == 4 && i < |data|
    ensures |Masked(key, data)| == |data|
    ensures Bit(Masked(key, data)[i] as nat, k) <==> Bit(data[i] as nat, k) != Bit(key[i % 4] as nat, k)
  {
    XorBits(data[i] as nat, key[i % 4] as nat, k);
  }

  lemma {:induction false} MaskedTwice(key: seq<byte>, data: seq<byte>)
    requires |key| == 4
    ensures Masked(key, Masked(key, data)) == data
  {
    forall i | 0 <= i < |data|
      ensures Masked(key, Masked(key, data))[i] == data[i]
    {
      XorTwice(data[i] as nat, key[i % 4] as nat);
    }
  }

  /** The bytes write puts on the wire.  Longer sizes lose their high bits in size16. */
  function FrameToWrite(data: seq<byte>): seq<byte> {
    var b0: byte := if data == [] then 138 else 129;
    if |data| <= 125 then [b0, (|data| + 128) as byte] + MASK + Masked(MASK, data)
    else [b0, 254] + Be16(|data|) + MASK + Masked(MASK, data)
  }

  datatype RfcFrame = RfcFrame(fin: bool, opcode: nat, data: seq<byte>)
  datatype Decoded = Invalid | Frame(frame: RfcFrame)

  /** A whole client frame by RFC 6455: masked, reserved bits clear, and the length in the
      shortest of its three forms. */
  function RfcDecode(b: seq<byte>): Decoded {
    if |b| < 2 || b[0] / 16 % 8 != 0 || b[1] < 128 then Invalid else
    var len7 := b[1] as nat - 128;
    var ext := if len7 == 126 then 2 else if len7 == 127 then 8 else 0;
    if |b| < 2 + ext + 4 then Invalid else
    var len := if ext == 0 then len7 else Big(b[2..2 + ext]);
    var key, payload := b[2 + ext..6 + ext], b[6 + ext..];
    if (ext == 2 && len <= 125) || (ext == 8 && len <= 65535) || |payload| != len then Invalid
    else Frame(RfcFrame(b[0] >= 128, b[0] as nat % 16, Masked(key, payload)))
  }

  lemma {:induction false} BigOfTwo(n: nat)
    ensures Big(Be16(n)) == n % 65536
  {
    var b := Be16(n);
    assert b == [] + [b[0]] + [b[1]];
    BigOfPair(b[0], b[1]);
    Pair(n);
    hide Big;
  }

  lemma {:induction false} BigOfPair(a: byte, b: byte)
    ensures Big([] + [a] + [b]) == 256 * a as nat + b as nat
  {
    BigLast([], a);
    BigLast([] + [a], b);
  }

  lemma {:induction false} Pair(n: nat)
    ensures 256 * (n / 256 % 256) + n % 256 == n % 65536
  {
    assert n == 65536 * (n / 65536) + (256 * (n / 256 % 256) + n % 256);
  }

  /** write emits a valid final text frame (a pong when there is no data) that unmasks to
      its data, exactly for data of at most 65535 bytes. */
  lemma {:induction false} WrittenFrameIff(data: seq<byte>)
    ensures RfcDecode(FrameToWrite(data)) == Frame(RfcFrame(true, if data == [] then 10 else 1, data))
      <==> |data| <= 65535
  {
    var b := FrameToWrite(data);
    MaskedTwice(MASK, data);
    if |data| <= 125 {
      assert b[2..6] == MASK && b[6..] == Masked(MASK, data);
    } else {
      BigOfTwo(|data|);
      assert b[2..4] == Be16(|data|) && b[4..8] == MASK && b[8..] == Masked(MASK, data);
    }
    hide Masked, Be16, Big;
  }

  // ---------------------------------------------------------------- the client

  method FindBlankLine(b: seq<byte>) returns (e: nat)
    ensures e == BlankEnd(b)
  {
    assert b[0..] == b;
    var i := 0;
    while i + 4 <= |b|
      invariant i <= |b|
      invariant BlankEnd(b) == Shift(i, BlankEnd(b[i..]))
    {
      hide BlankEnd;
      BlankEndNext(b, i);
      if b[i..i + 4] == BLANK_LINE {
        return i + 4;
      }
      i := i + 1;
    }
    assert BlankEnd(b[i..]) == 0;
    e := 0;
  }

  class WebSocketClient {
    var upgraded: bool
    var buffer: seq<byte>

    ghost function State(): Reader
      reads this
    {
      Reader(upgraded, buffer)
    }

    constructor ()
      ensures State() == Reader(false, [])
    {
      upgraded, buffer := false, [];
    }

    /** connected: onWebSocketConnected was emitted during this read. */
    method HandleDataRead(chunk: seq<byte>) returns (payloads: seq<seq<byte>>, connected: bool)
      modifies this
      ensures Steady(FrameStep)
      ensures (payloads, State()) == Read(old(State()), chunk)
      ensures connected <==> upgraded && !old(upgraded)
    {
      FramesSteady();
      buffer := buffer + chunk;
      payloads, connected := [], false;
      if !upgraded {
        var e := FindBlankLine(buffer);
        if e == 0 {
          return;
        }
        buffer := buffer[e..];
        upgraded, connected := true, true;
      }
      payloads := ParseFrames();
    }

    method ParseFrames() returns (payloads: seq<seq<byte>>)
      requires Steady(FrameStep)
      modifies this`buffer
      ensures (payloads, buffer) == Drain(FrameStep, old(buffer))
    {
      hide Steady, Drain;
      payloads := [];
      ghost var (out, rest) := Drain(FrameStep, buffer);
      while |buffer| > 0
        invariant payloads + Drain(FrameStep, buffer).0 == out && Drain(FrameStep, buffer).1 == rest
        decreases |buffer|
      {
        if |buffer| < 2 {
          DrainWait(FrameStep, buffer, payloads);
          return;
        }
        var opcode, size7, mask := buffer[0] % 16, buffer[1] % 128, buffer[1] >= 128;
        var size16, header := 0, 2;
        if size7 == 126 {
          if |buffer| < 4 {
            DrainWait(FrameStep, buffer, payloads);
            return;
          }
          size16, header := ReadBe16(buffer[2..4]), 4;
        }
        if opcode == 9 && mask && size7 == 1 {
          DrainTake(FrameStep, buffer, payloads);
          buffer := buffer[1..];
          assert payloads + [] == payloads;
          continue;
        }
        var size := if size16 == 0 then size7 as nat else size16;
        if |buffer| < size + header {
          // A size of 0 never gets here: its header alone is enough bytes.
          DrainWait(FrameStep, buffer, payloads);
          return;
        }
        DrainTake(FrameStep, buffer, payloads);
        payloads := payloads + [buffer[header..header + size]];
        buffer := buffer[size + header..];
      }
      DrainWait(FrameStep, buffer, payloads);
    }

    /** The bytes write sends for data. */
    method Write(data: seq<byte>) returns (wire: seq<byte>)
      ensures wire == FrameToWrite(data)
    {
      var opcode: byte := if |data| == 0 then 138 else 129;
      var payload := data;
      var i := 0;
      while i < |data|
        invariant i <= |data| && |payload| == |data|
        invariant forall j :: 0 <= j < i ==> payload[j] == XorByte(data[j], MASK[j % 4])
        invariant forall j :: i <= j < |data| ==> payload[j] == data[j]
      {
        payload := payload[i := XorByte(payload[i], MASK[i % 4])];
        i := i + 1;
      }
      assert payload == Masked(MASK, data);
      if |data| <= 125 {
        wire := [opcode, (|data| + 128) as byte] + MASK + payload;
      } else {
        wire := [opcode, 254] + Be16(|data|) + MASK + payload;
      }
    }
  }
}
