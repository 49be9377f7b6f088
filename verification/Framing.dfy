/** The socket between the server and its backends: every wrapper message is preceded by
    its length in four bytes, most significant first. */
module Framing {
  import opened Wrappers
  import opened Streams

  datatype MessageType =
    | CONNECTED | DISCONNECTED | LOGIN | LOGOUT | BUDDY_CHANGED | BUDDY_REMOVED | CONV_MESSAGE | PING | PONG
    | JOIN_ROOM | LEAVE_ROOM | PARTICIPANT_CHANGED | ROOM_NICKNAME_CHANGED | ROOM_SUBJECT_CHANGED | VCARD
    | STATUS_CHANGED | BUDDY_TYPING | BUDDY_STOPPED_TYPING | BUDDY_TYPED | AUTH_REQUEST | ATTENTION | STATS
    | FT_START | FT_FINISH | FT_DATA | FT_PAUSE | FT_CONTINUE | EXIT | BACKEND_CONFIG | QUERY | ROOM_LIST
    | CONV_MESSAGE_ACK | RAW_XML | BUDDIES | API_VERSION

  datatype WrapperMessage = WrapperMessage(mtype: MessageType, payload: seq<byte>)

  /** ParseFromArray, which belongs to the protocol buffer library. */
  datatype Parsed = Malformed | Wrapper(message: WrapperMessage)
  type Parser = seq<byte> -> Parsed

  // ---------------------------------------------------------------- the length header

  const WORD: int := 0x1_0000_0000

  function Header(size: nat): seq<byte> {
    var n := size % WORD;
    [(n / 0x100_0000) as byte, (n / 0x1_0000 % 0x100) as byte, (n / 0x100 % 0x100) as byte, (n % 0x100) as byte]
  }

  function ReadHeader(b: seq<byte>): nat
    requires |b| >= 4
  {
    b[0] as int * 0x100_0000 + b[1] as int * 0x1_0000 + b[2] as int * 0x100 + b[3] as int
  }

  lemma {:induction false} HeaderRoundTrip(size: nat, rest: seq<byte>)
    ensures ReadHeader(Header(size) + rest) == size % WORD
  {
    var n := size % WORD;
    assert n / 0x1_0000 == n / 0x100_0000 * 0x100 + n / 0x1_0000 % 0x100;
    assert n / 0x100 == n / 0x1_0000 * 0x100 + n / 0x100 % 0x100;
  }

  /** Both ends mean the same four bytes: the size modulo 2^32, most significant byte first. */
  lemma {:induction false} HeaderIsSize(size: nat)
    ensures |Header(size)| == 4 && Big(Header(size)) == size % WORD
  {
    var h := Header(size);
    HeaderRoundTrip(size, []);
    assert h + [] == h;
    HeaderIsBig(h);
  }

  lemma {:induction false} HeaderIsBig(b: seq<byte>)
    requires |b| >= 4
    ensures ReadHeader(b) == Big(b[..4])
  {
    assert b[..4] == [] + [b[0]] + [b[1]] + [b[2]] + [b[3]];
    BigLast([], b[0]);
    BigLast([] + [b[0]], b[1]);
    BigLast([] + [b[0]] + [b[1]], b[2]);
    BigLast([] + [b[0]] + [b[1]] + [b[2]], b[3]);
    hide Big;
  }

  /** send: the size is cut to 32 bits, the data is not. */
  function Encode(data: seq<byte>): seq<byte> {
    Header(|data|) + data
  }

  // ---------------------------------------------------------------- the two receivers

  /** The cases of the switch in NetworkPluginServer::handleDataRead. */
  predicate ServerHandles(t: MessageType) {
    t in {CONNECTED, DISCONNECTED, BUDDY_CHANGED, CONV_MESSAGE, ROOM_SUBJECT_CHANGED, PONG, PARTICIPANT_CHANGED,
          ROOM_NICKNAME_CHANGED, VCARD, BUDDY_TYPING, BUDDY_TYPED, BUDDY_STOPPED_TYPING, AUTH_REQUEST, ATTENTION,
          STATS, BUDDY_REMOVED, QUERY, BACKEND_CONFIG, ROOM_LIST, CONV_MESSAGE_ACK, RAW_XML}
  }

  /** The cases of the switch in NetworkPlugin::handleDataRead. */
  predicate PluginHandles(t: MessageType) {
    t in {LOGIN, LOGOUT, PING, CONV_MESSAGE, ROOM_SUBJECT_CHANGED, JOIN_ROOM, LEAVE_ROOM, VCARD, BUDDY_CHANGED,
          BUDDY_REMOVED, STATUS_CHANGED, BUDDY_TYPING, BUDDY_TYPED, BUDDY_STOPPED_TYPING, ATTENTION, EXIT, RAW_XML}
  }

  /** The server skips what it cannot parse; the plugin gives up the current read. */
  function ServerVerdict(parse: Parser, frame: seq<byte>): Verdict<WrapperMessage> {
    match parse(frame)
    case Malformed => Skip
    case Wrapper(m) => if ServerHandles(m.mtype) then Deliver(m) else Stop
  }

  function PluginVerdict(parse: Parser, frame: seq<byte>): Verdict<WrapperMessage> {
    match parse(frame)
    case Malformed => Stop
    case Wrapper(m) => if PluginHandles(m.mtype) then Deliver(m) else Stop
  }

  predicate ServerTakes(parse: Parser, frame: seq<byte>) {
    parse(frame).Wrapper? ==> ServerHandles(parse(frame).message.mtype)
  }

  predicate PluginTakes(parse: Parser, frame: seq<byte>) {
    parse(frame).Wrapper? && PluginHandles(parse(frame).message.mtype)
  }

  function FrameStep(verdict: seq<byte> -> Verdict<WrapperMessage>, buf: seq<byte>): Step<WrapperMessage> {
    if |buf| < 4 || |buf| - 4 < ReadHeader(buf) then Wait
    else Take(4 + ReadHeader(buf), verdict(buf[4..4 + ReadHeader(buf)]))
  }

  function ServerStep(parse: Parser): seq<byte> -> Step<WrapperMessage> {
    buf => FrameStep(frame => ServerVerdict(parse, frame), buf)
  }

  function PluginStep(parse: Parser): seq<byte> -> Step<WrapperMessage> {
    buf => FrameStep(frame => PluginVerdict(parse, frame), buf)
  }

  lemma {:induction false} FrameStepSteady(verdict: seq<byte> -> Verdict<WrapperMessage>, a: seq<byte>, b: seq<byte>)
    requires FrameStep(verdict, a).Take?
    ensures FrameStep(verdict, a + b) == FrameStep(verdict, a)
  {
    var n := ReadHeader(a);
    assert ReadHeader(a + b) == n;
    assert (a + b)[4..4 + n] == a[4..4 + n];
  }

  lemma {:induction false} ServerSteady(parse: Parser)
    ensures Steady(ServerStep(parse)) && ServerStep(parse)([]).Wait?
  {
    forall a, b | ServerStep(parse)(a).Take?
      ensures ServerStep(parse)(a + b) == ServerStep(parse)(a)
    {
      FrameStepSteady(frame => ServerVerdict(parse, frame), a, b);
    }
  }

  lemma {:induction false} PluginSteady(parse: Parser)
    ensures Steady(PluginStep(parse)) && PluginStep(parse)([]).Wait?
  {
    forall a, b | PluginStep(parse)(a).Take?
      ensures PluginStep(parse)(a + b) == PluginStep(parse)(a)
    {
      FrameStepSteady(frame => PluginVerdict(parse, frame), a, b);
    }
  }

  // ---------------------------------------------------------------- the read loops

  class Receiver {
    const parse: Parser
    /** Backend::data in the server, m_data in the plugin. */
    var data: seq<byte>

    constructor (parser: Parser)
      ensures parse == parser && data == []
    {
      parse, data := parser, [];
    }

    /** NetworkPluginServer::handleDataRead. */
    method ServerHandleDataRead(chunk: seq<byte>) returns (dispatched: seq<WrapperMessage>)
      modifies this
      ensures Steady(ServerStep(parse))
      ensures (dispatched, data) == Drain(ServerStep(parse), old(data) + chunk)
    {
      ServerSteady(parse);
      hide Steady, Drain, ServerHandles;
      var step := ServerStep(parse);
      data := data + chunk;
      dispatched := [];
      ghost var (out, rest) := Drain(step, data);
      while |data| != 0
        invariant dispatched + Drain(step, data).0 == out && Drain(step, data).1 == rest
        decreases |data|
      {
        if |data| < 4 || |data| - 4 < ReadHeader(data) {
          DrainWait(step, data, dispatched);
          return;
        }
        var expected := ReadHeader(data);
        DrainTake(step, data, dispatched);
        var parsed := parse(data[4..4 + expected]);
        data := data[4 + expected..];
        match parsed {
          case Malformed =>
            assert dispatched + [] == dispatched;
          case Wrapper(m) =>
            if !ServerHandles(m.mtype) {
              return;
            }
            dispatched := dispatched + [m];
        }
        hide ReadHeader;
      }
      DrainWait(step, data, dispatched);
    }

    /** NetworkPlugin::handleDataRead. */
    method PluginHandleDataRead(chunk: seq<byte>) returns (dispatched: seq<WrapperMessage>)
      modifies this
      ensures Steady(PluginStep(parse))
      ensures (dispatched, data) == Drain(PluginStep(parse), old(data) + chunk)
    {
      PluginSteady(parse);
      hide Steady, Drain, PluginHandles;
      var step := PluginStep(parse);
      data := data + chunk;
      dispatched := [];
      ghost var (out, rest) := Drain(step, data);
      while |data| != 0
        invariant dispatched + Drain(step, data).0 == out && Drain(step, data).1 == rest
        decreases |data|
      {
        if |data| < 4 || |data| - 4 < ReadHeader(data) {
          DrainWait(step, data, dispatched);
          return;
        }
        var expected := ReadHeader(data);
        DrainTake(step, data, dispatched);
        var parsed := parse(data[4..4 + expected]);
        data := data[4 + expected..];
        if parsed.Malformed? {
          return;
        }
        if !PluginHandles(parsed.message.mtype) {
          return;
        }
        dispatched := dispatched + [parsed.message];
        hide ReadHeader;
      }
      DrainWait(step, data, dispatched);
    }
  }

  // ---------------------------------------------------------------- end to end

  function EncodeAll(ms: seq<seq<byte>>): seq<seq<byte>> {
    seq(|ms|, i requires 0 <= i < |ms| => Encode(ms[i]))
  }

  function Verdicts(verdict: seq<byte> -> Verdict<WrapperMessage>, ms: seq<seq<byte>>): seq<Verdict<WrapperMessage>> {
    seq(|ms|, i requires 0 <= i < |ms| => verdict(ms[i]))
  }

  function ServerVerdicts(parse: Parser, ms: seq<seq<byte>>): seq<Verdict<WrapperMessage>> {
    Verdicts(f => ServerVerdict(parse, f), ms)
  }

  function PluginVerdicts(parse: Parser, ms: seq<seq<byte>>): seq<Verdict<WrapperMessage>> {
    Verdicts(f => PluginVerdict(parse, f), ms)
  }

  /** An encoded message comes out whole exactly when its size fits the header. */
  lemma {:induction false} EncodedFrame(verdict: seq<byte> -> Verdict<WrapperMessage>, m: seq<byte>)
    ensures |m| < WORD ==> FrameStep(verdict, Encode(m)) == Take(|Encode(m)|, verdict(m))
    ensures |m| >= WORD ==> FrameStep(verdict, Encode(m)).Take? && FrameStep(verdict, Encode(m)).n < |Encode(m)|
    ensures |m| < WORD ==> forall n :: 0 <= n < |Encode(m)| ==> FrameStep(verdict, Encode(m)[..n]).Wait?
  {
    HeaderRoundTrip(|m|, m);
    if |m| < WORD {
      assert Encode(m)[4..4 + |m|] == m;
      forall n | 0 <= n < |Encode(m)|
        ensures FrameStep(verdict, Encode(m)[..n]).Wait?
      {
        if n >= 4 { assert ReadHeader(Encode(m)[..n]) == ReadHeader(Encode(m)); }
      }
    }
  }

  ghost predicate Fit(ms: seq<seq<byte>>) {
    forall i :: 0 <= i < |ms| ==> |ms[i]| < WORD
  }

  lemma {:induction false} ServerFrames(parse: Parser, ms: seq<seq<byte>>)
    requires Fit(ms)
    ensures AreFrames(ServerStep(parse), EncodeAll(ms), ServerVerdicts(parse, ms))
    ensures forall i :: 0 <= i < |ms| ==> PrefixesWait(ServerStep(parse), EncodeAll(ms)[i])
  {
    forall i | 0 <= i < |ms|
      ensures IsFrame(ServerStep(parse), EncodeAll(ms)[i], ServerVerdict(parse, ms[i]))
      ensures PrefixesWait(ServerStep(parse), EncodeAll(ms)[i])
    {
      EncodedFrame(f => ServerVerdict(parse, f), ms[i]);
    }
  }

  lemma {:induction false} PluginFrames(parse: Parser, ms: seq<seq<byte>>)
    requires Fit(ms)
    ensures AreFrames(PluginStep(parse), EncodeAll(ms), PluginVerdicts(parse, ms))
    ensures forall i :: 0 <= i < |ms| ==> PrefixesWait(PluginStep(parse), EncodeAll(ms)[i])
  {
    forall i | 0 <= i < |ms|
      ensures IsFrame(PluginStep(parse), EncodeAll(ms)[i], PluginVerdict(parse, ms[i]))
      ensures PrefixesWait(PluginStep(parse), EncodeAll(ms)[i])
    {
      EncodedFrame(f => PluginVerdict(parse, f), ms[i]);
    }
  }

  /** Wrapper messages the server's switch knows, with any number of unparseable ones
      between them, cut into reads anyhow: exactly the parseable ones are dispatched, in
      order, and nothing stays in the buffer. */
  lemma {:induction false} ServerReceivesAll(parse: Parser, ms: seq<seq<byte>>, chunks: seq<seq<byte>>)
    requires Fit(ms) && Concat(chunks) == Concat(EncodeAll(ms))
    requires forall i :: 0 <= i < |ms| ==> ServerTakes(parse, ms[i])
    ensures Steady(ServerStep(parse))
    ensures Feed(ServerStep(parse), [], chunks) == (Messages(parse, ms), [])
  {
    ServerSteady(parse);
    ServerFrames(parse, ms);
    var vs := ServerVerdicts(parse, ms);
    FramesArrive(ServerStep(parse), EncodeAll(ms), vs, chunks);
    ServerMessages(parse, ms);
  }

  /** The plugin end, for messages that all parse and are all known to its switch. */
  lemma {:induction false} PluginReceivesAll(parse: Parser, ms: seq<seq<byte>>, chunks: seq<seq<byte>>)
    requires Fit(ms) && Concat(chunks) == Concat(EncodeAll(ms))
    requires forall i :: 0 <= i < |ms| ==> PluginTakes(parse, ms[i])
    ensures Steady(PluginStep(parse))
    ensures Feed(PluginStep(parse), [], chunks) == (Messages(parse, ms), [])
  {
    PluginSteady(parse);
    PluginFrames(parse, ms);
    var vs := PluginVerdicts(parse, ms);
    FramesArrive(PluginStep(parse), EncodeAll(ms), vs, chunks);
    PluginMessages(parse, ms);
  }

  /** The messages of a list of frames, without the unparseable ones. */
  function Messages(parse: Parser, ms: seq<seq<byte>>): seq<WrapperMessage> {
    if ms == [] then []
    else (if parse(ms[0]).Wrapper? then [parse(ms[0]).message] else []) + Messages(parse, ms[1..])
  }

  lemma {:induction false} ServerMessages(parse: Parser, ms: seq<seq<byte>>)
    requires forall i :: 0 <= i < |ms| ==> ServerTakes(parse, ms[i])
    ensures EmittedAll(ServerVerdicts(parse, ms)) == Messages(parse, ms)
  {
    if ms != [] {
      assert ServerVerdicts(parse, ms)[1..] == ServerVerdicts(parse, ms[1..]);
      ServerMessages(parse, ms[1..]);
    }
  }

  lemma {:induction false} PluginMessages(parse: Parser, ms: seq<seq<byte>>)
    requires forall i :: 0 <= i < |ms| ==> PluginTakes(parse, ms[i])
    ensures EmittedAll(PluginVerdicts(parse, ms)) == Messages(parse, ms)
  {
    if ms != [] {
      assert PluginVerdicts(parse, ms)[1..] == PluginVerdicts(parse, ms[1..]);
      PluginMessages(parse, ms[1..]);
    }
  }

  /** A receiver that has seen only part of a stream: the messages of the first k frames are
      dispatched, and the buffer holds a strict prefix of the next frame. */
  ghost predicate Reached(parse: Parser, ms: seq<seq<byte>>, came: seq<byte>, fed: (seq<WrapperMessage>, seq<byte>), k: nat) {
    && k <= |ms|
    && fed.0 == Messages(parse, ms[..k])
    && came == Concat(EncodeAll(ms[..k])) + fed.1
    && (if k == |ms| then fed.1 == [] else fed.1 < Encode(ms[k]))
  }

  lemma {:induction false} FedReaches(parse: Parser, ms: seq<seq<byte>>, vs: seq<Verdict<WrapperMessage>>,
                                      came: seq<byte>, fed: (seq<WrapperMessage>, seq<byte>), k: nat)
    requires |vs| == |ms| && FedTo(EncodeAll(ms), vs, came, fed, k) && EmittedAll(vs[..k]) == Messages(parse, ms[..k])
    ensures Reached(parse, ms, came, fed, k)
  {
    assert EncodeAll(ms)[..k] == EncodeAll(ms[..k]);
    hide Encode, EmittedAll, Messages, Concat;
  }

  lemma {:induction false} PartialStream(step: seq<byte> -> Step<WrapperMessage>, parse: Parser, ms: seq<seq<byte>>,
                                         vs: seq<Verdict<WrapperMessage>>, chunks: seq<seq<byte>>)
    requires Steady(step) && AreFrames(step, EncodeAll(ms), vs) && step([]).Wait? && Concat(chunks) <= Concat(EncodeAll(ms))
    requires forall i :: 0 <= i < |ms| ==> PrefixesWait(step, EncodeAll(ms)[i]) && !vs[i].Stop?
    requires forall k :: 0 <= k <= |ms| ==> EmittedAll(vs[..k]) == Messages(parse, ms[..k])
    ensures exists k: nat :: Reached(parse, ms, Concat(chunks), Feed(step, [], chunks), k)
  {
    hide Steady, PrefixesWait, Feed, Messages, EmittedAll, Encode;
    PrefixArrives(step, EncodeAll(ms), vs, chunks);
    var fed := Feed(step, [], chunks);
    var k: nat :| FedTo(EncodeAll(ms), vs, Concat(chunks), fed, k);
    FedReaches(parse, ms, vs, Concat(chunks), fed, k);
  }

  lemma {:induction false} ServerPrefixes(parse: Parser, ms: seq<seq<byte>>, k: nat)
    requires k <= |ms| && forall i :: 0 <= i < |ms| ==> ServerTakes(parse, ms[i])
    ensures EmittedAll(ServerVerdicts(parse, ms)[..k]) == Messages(parse, ms[..k])
  {
    assert ServerVerdicts(parse, ms)[..k] == ServerVerdicts(parse, ms[..k]);
    ServerMessages(parse, ms[..k]);
  }

  /** Any part of a stream, cut into reads anyhow, when the server's loop takes every frame. */
  lemma {:induction false} ServerPartialStream(parse: Parser, ms: seq<seq<byte>>, chunks: seq<seq<byte>>)
    requires Fit(ms) && Concat(chunks) <= Concat(EncodeAll(ms))
    requires forall i :: 0 <= i < |ms| ==> ServerTakes(parse, ms[i])
    ensures Steady(ServerStep(parse))
    ensures exists k: nat :: Reached(parse, ms, Concat(chunks), Feed(ServerStep(parse), [], chunks), k)
  {
    ServerSteady(parse);
    ServerFrames(parse, ms);
    ServerStops(parse, ms);
    hide ServerStep, ServerVerdicts, ServerTakes, Steady, AreFrames, PrefixesWait, EncodeAll, Feed, Reached;
    forall k | 0 <= k <= |ms| ensures EmittedAll(ServerVerdicts(parse, ms)[..k]) == Messages(parse, ms[..k]) {
      ServerPrefixes(parse, ms, k);
    }
    PartialStream(ServerStep(parse), parse, ms, ServerVerdicts(parse, ms), chunks);
  }

  lemma {:induction false} PluginPrefixes(parse: Parser, ms: seq<seq<byte>>, k: nat)
    requires k <= |ms| && forall i :: 0 <= i < |ms| ==> PluginTakes(parse, ms[i])
    ensures EmittedAll(PluginVerdicts(parse, ms)[..k]) == Messages(parse, ms[..k])
  {
    assert PluginVerdicts(parse, ms)[..k] == PluginVerdicts(parse, ms[..k]);
    PluginMessages(parse, ms[..k]);
  }

  /** Any part of a stream, cut into reads anyhow, when the plugin's loop takes every frame. */
  lemma {:induction false} PluginPartialStream(parse: Parser, ms: seq<seq<byte>>, chunks: seq<seq<byte>>)
    requires Fit(ms) && Concat(chunks) <= Concat(EncodeAll(ms))
    requires forall i :: 0 <= i < |ms| ==> PluginTakes(parse, ms[i])
    ensures Steady(PluginStep(parse))
    ensures exists k: nat :: Reached(parse, ms, Concat(chunks), Feed(PluginStep(parse), [], chunks), k)
  {
    PluginSteady(parse);
    PluginFrames(parse, ms);
    PluginStops(parse, ms);
    hide PluginStep, PluginVerdicts, PluginTakes, Steady, AreFrames, PrefixesWait, EncodeAll, Feed, Reached;
    forall k | 0 <= k <= |ms| ensures EmittedAll(PluginVerdicts(parse, ms)[..k]) == Messages(parse, ms[..k]) {
      PluginPrefixes(parse, ms, k);
    }
    PartialStream(PluginStep(parse), parse, ms, PluginVerdicts(parse, ms), chunks);
  }

  /** With types the switch does not know among them, whole frames may wait in the buffer,
      but only right behind a frame whose type the switch does not know. */
  lemma {:induction false} ServerBacklog(parse: Parser, ms: seq<seq<byte>>, chunks: seq<seq<byte>>)
    requires Fit(ms) && Concat(chunks) <= Concat(EncodeAll(ms))
    ensures Steady(ServerStep(parse))
    ensures SomeBacklog(EncodeAll(ms), ServerVerdicts(parse, ms), Concat(chunks), Feed(ServerStep(parse), [], chunks), false)
  {
    ServerSteady(parse);
    ServerFrames(parse, ms);
    PrefixArrives(ServerStep(parse), EncodeAll(ms), ServerVerdicts(parse, ms), chunks);
  }

  lemma {:induction false} PluginBacklog(parse: Parser, ms: seq<seq<byte>>, chunks: seq<seq<byte>>)
    requires Fit(ms) && Concat(chunks) <= Concat(EncodeAll(ms))
    ensures Steady(PluginStep(parse))
    ensures SomeBacklog(EncodeAll(ms), PluginVerdicts(parse, ms), Concat(chunks), Feed(PluginStep(parse), [], chunks), false)
  {
    PluginSteady(parse);
    PluginFrames(parse, ms);
    PrefixArrives(PluginStep(parse), EncodeAll(ms), PluginVerdicts(parse, ms), chunks);
  }

  // ---------------------------------------------------------------- what stops a read

  /** When a single read brings whole frames, the server leaves some buffered exactly when
      one before the last is of a type unknown to its switch. */
  lemma {:induction false} ServerStallsIff(parse: Parser, ms: seq<seq<byte>>)
    requires Fit(ms)
    ensures Steady(ServerStep(parse))
    ensures Drain(ServerStep(parse), Concat(EncodeAll(ms))).1 == []
      <==> forall i :: 0 <= i < |ms| - 1 ==> ServerTakes(parse, ms[i])
  {
    ServerSteady(parse);
    ServerFrames(parse, ms);
    var vs := ServerVerdicts(parse, ms);
    DrainEmptiesIff(ServerStep(parse), EncodeAll(ms), vs);
    ServerStops(parse, ms);
    hide *;
  }

  lemma {:induction false} ServerStops(parse: Parser, ms: seq<seq<byte>>)
    ensures |ServerVerdicts(parse, ms)| == |ms|
    ensures forall i :: 0 <= i < |ms| ==> (ServerVerdicts(parse, ms)[i].Stop? <==> !ServerTakes(parse, ms[i]))
  {
    hide ServerHandles;
  }

  lemma {:induction false} PluginStops(parse: Parser, ms: seq<seq<byte>>)
    ensures |PluginVerdicts(parse, ms)| == |ms|
    ensures forall i :: 0 <= i < |ms| ==> (PluginVerdicts(parse, ms)[i].Stop? <==> !PluginTakes(parse, ms[i]))
  {
    hide PluginHandles;
  }

  /** The types NetworkPluginServer and NetworkPlugin put into frames. */
  predicate ServerSends(t: MessageType) {
    t in {LOGIN, LOGOUT, BUDDY_CHANGED, BUDDY_REMOVED, CONV_MESSAGE, PING, JOIN_ROOM, LEAVE_ROOM, ROOM_SUBJECT_CHANGED,
          VCARD, STATUS_CHANGED, BUDDY_TYPING, BUDDY_TYPED, BUDDY_STOPPED_TYPING, ATTENTION, EXIT, QUERY, RAW_XML,
          BUDDIES, API_VERSION}
  }

  predicate PluginSends(t: MessageType) {
    t in {BACKEND_CONFIG, RAW_XML, CONV_MESSAGE, CONV_MESSAGE_ACK, ATTENTION, VCARD, ROOM_SUBJECT_CHANGED, BUDDY_CHANGED,
          BUDDY_REMOVED, BUDDY_TYPING, BUDDY_TYPED, BUDDY_STOPPED_TYPING, AUTH_REQUEST, CONNECTED, DISCONNECTED,
          PARTICIPANT_CHANGED, ROOM_NICKNAME_CHANGED, ROOM_LIST, PONG, STATS}
  }

  /** The server's switch knows all that a plugin sends; a plugin's switch lacks exactly three
      of the types the server can send. */
  lemma {:induction false} UnknownToTheOtherEnd(t: MessageType)
    ensures PluginSends(t) ==> ServerHandles(t)
    ensures ServerSends(t) && !PluginHandles(t) <==> t in {QUERY, BUDDIES, API_VERSION}
  {
  }

  /** The types that make the server stop reading, and those that make a plugin stop. */
  lemma {:induction false} UnknownTypes(t: MessageType)
    ensures !ServerHandles(t) <==>
      t in {LOGIN, LOGOUT, PING, JOIN_ROOM, LEAVE_ROOM, STATUS_CHANGED, FT_START, FT_FINISH, FT_DATA, FT_PAUSE, FT_CONTINUE,
            EXIT, BUDDIES, API_VERSION}
    ensures !PluginHandles(t) <==>
      t in {CONNECTED, DISCONNECTED, PONG, PARTICIPANT_CHANGED, ROOM_NICKNAME_CHANGED, AUTH_REQUEST, STATS,
            FT_START, FT_FINISH, FT_DATA, FT_PAUSE, FT_CONTINUE, BACKEND_CONFIG, QUERY, ROOM_LIST, CONV_MESSAGE_ACK, BUDDIES,
            API_VERSION}
  {
  }

  /** When a single read brings whole frames, the plugin leaves some buffered exactly when
      one before the last is unparseable or unknown to its switch. */
  lemma {:induction false} PluginStallsIff(parse: Parser, ms: seq<seq<byte>>)
    requires Fit(ms)
    ensures Steady(PluginStep(parse))
    ensures Drain(PluginStep(parse), Concat(EncodeAll(ms))).1 == []
      <==> forall i :: 0 <= i < |ms| - 1 ==> PluginTakes(parse, ms[i])
  {
    PluginSteady(parse);
    PluginFrames(parse, ms);
    var vs := PluginVerdicts(parse, ms);
    DrainEmptiesIff(PluginStep(parse), EncodeAll(ms), vs);
    PluginStops(parse, ms);
    hide *;
  }
}
