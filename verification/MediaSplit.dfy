/** Rewriting an incoming message that shows images.  The image expression is a parameter:
    find gives the first image of a text. */
module MediaSplit {
  import opened Lists
  import opened Wrappers
  import opened Trimming

  datatype Match = Match(start: nat, end: nat, url: string)

  /** Payloads other than body and XHTML. */
  datatype Payload = Oob(url: string) | Other(id: int)

  datatype Message = Message(body: string, xhtml: Option<string>, payloads: seq<Payload>)

  datatype OobMode = WrapAll | Exclusive | Split

  type Finder = string -> Option<Match>

  /** A match is a non-empty part of its text and its address is not empty. */
  ghost predicate Sane(find: Finder) {
    forall s :: find(s).Some? ==> find(s).value.start < find(s).value.end <= |s| && find(s).value.url != ""
  }

  // ------------------------------------------------------------------------ search

  predicate IsAt(s: string, t: string, i: nat) {
    i + |t| <= |s| && s[i..i + |t|] == t
  }

  /** std::string::find from a position on. */
  function Find(s: string, t: string, from: nat): (r: Option<nat>)
    ensures r.Some? ==> from <= r.value && IsAt(s, t, r.value) && forall i :: from <= i < r.value ==> !IsAt(s, t, i)
    ensures r.None? ==> forall i :: from <= i ==> !IsAt(s, t, i)
    decreases |s| - from
  {
    if from + |t| > |s| then None
    else if IsAt(s, t, from) then Some(from)
    else Find(s, t, from + 1)
  }

  // ------------------------------------------------------------------------ pieces

  /** The message text as the images cut it; tag is an image's text. */
  datatype Piece = Text(s: string) | Image(tag: string, url: string)

  function TextPiece(s: string): seq<Piece> {
    if s == "" then [] else [Text(s)]
  }

  ghost function Pieces(find: Finder, s: string): seq<Piece>
    requires Sane(find)
    decreases |s|
  {
    match find(s)
    case None => TextPiece(s)
    case Some(m) => TextPiece(s[..m.start]) + [Image(s[m.start..m.end], m.url)] + Pieces(find, s[m.end..])
  }

  function Source(p: Piece): string {
    if p.Text? then p.s else p.tag
  }

  function Glue(ps: seq<Piece>): string {
    if ps == [] then "" else Source(ps[0]) + Glue(ps[1..])
  }

  lemma {:induction false} GlueBoth(ps: seq<Piece>, qs: seq<Piece>)
    ensures Glue(ps + qs) == Glue(ps) + Glue(qs)
  {
    if ps == [] {
      assert ps + qs == qs;
    } else {
      assert (ps + qs)[1..] == ps[1..] + qs;
      GlueBoth(ps[1..], qs);
    }
  }

  lemma {:induction false} GlueOne(p: Piece)
    ensures Glue([p]) == Source(p)
  {
  }

  lemma {:induction false} GlueText(s: string)
    ensures Glue(TextPiece(s)) == s
  {
  }

  lemma {:induction false} Rejoin(s: string, a: nat, b: nat)
    requires a <= b <= |s|
    ensures s[..a] + s[a..b] + s[b..] == s
  {
  }

  /** The pieces glued together are the text. */
  lemma {:induction false} PiecesPartition(find: Finder, s: string)
    requires Sane(find)
    ensures Glue(Pieces(find, s)) == s
    decreases |s|
  {
    if find(s).None? {
      GlueText(s);
    } else {
      var m := find(s).value;
      var image := Image(s[m.start..m.end], m.url);
      PiecesPartition(find, s[m.end..]);
      hide Glue, TextPiece;
      GlueBoth(TextPiece(s[..m.start]), [image]);
      GlueBoth(TextPiece(s[..m.start]) + [image], Pieces(find, s[m.end..]));
      GlueText(s[..m.start]);
      GlueOne(image);
      Rejoin(s, m.start, m.end);
    }
  }

  /** Texts are not empty and never adjacent. */
  ghost predicate Alternating(ps: seq<Piece>) {
    (forall i :: 0 <= i < |ps| && ps[i].Text? ==> ps[i].s != "") &&
    forall i :: 0 <= i < |ps| - 1 && ps[i].Text? ==> ps[i + 1].Image?
  }

  lemma {:induction false} PiecesAlternate(find: Finder, s: string)
    requires Sane(find)
    ensures Alternating(Pieces(find, s))
    decreases |s|
  {
    if find(s).Some? {
      PiecesAlternate(find, s[find(s).value.end..]);
    }
  }

  // ---------------------------------------------------------------------- messages

  /** copySwiftMessage: the other payloads with a new body and text. */
  function Copy(msg: Message, xhtml: string, body: string): Message {
    Message(body, Some(xhtml), msg.payloads)
  }

  function TextMessage(msg: Message, s: string, body: string): seq<Message> {
    var x, b := XhtmlTrim(s), PlaintextTrim(body);
    if x != "" || b != "" then [Copy(msg, x, b)] else []
  }

  function ImageMessage(msg: Message, p: Piece): Message
    requires p.Image?
  {
    Message(p.url, Some(p.tag), msg.payloads + [Oob(p.url)])
  }

  /** The plain text before an image ends where its address is next mentioned. */
  function BodyBefore(body: string, pos: nat, url: string): (r: (string, nat))
    requires pos <= |body|
    ensures pos <= r.1 <= |body|
  {
    match Find(body, url, pos)
    case None => ("", pos)
    case Some(k) => (body[pos..k], k + |url|)
  }

  /** The plain text is used up in order: what goes with the text before the image and the
      first mention of the address after pos, or nothing when it is not mentioned. */
  lemma {:induction false} BodyUsedInOrder(body: string, pos: nat, url: string)
    requires pos <= |body|
    ensures var (before, next) := BodyBefore(body, pos, url);
      if exists i :: pos <= i && IsAt(body, url, i)
      then body[pos..next] == before + url && forall i :: pos <= i < pos + |before| ==> !IsAt(body, url, i)
      else before == "" && next == pos
  {
    var r := Find(body, url, pos);
    if r.Some? {
      assert IsAt(body, url, r.value);
      assert body[pos..r.value + |url|] == body[pos..r.value] + body[r.value..r.value + |url|];
    }
  }

  /** Split mode on the pieces, from a position of the plain text on. */
  function Deliver(msg: Message, ps: seq<Piece>, pos: nat): seq<Message>
    requires pos <= |msg.body|
    decreases |ps|
  {
    if ps == [] then []
    else if ps[0].Image? then [ImageMessage(msg, ps[0])] + Deliver(msg, ps[1..], pos)
    else if |ps| > 1 && ps[1].Image? then
      var (before, next) := BodyBefore(msg.body, pos, ps[1].url);
      TextMessage(msg, ps[0].s, before) + [ImageMessage(msg, ps[1])] + Deliver(msg, ps[2..], next)
    else TextMessage(msg, ps[0].s, msg.body[pos..]) + Deliver(msg, ps[1..], pos)
  }

  function Addresses(ps: seq<Piece>): seq<string> {
    if ps == [] then [] else (if ps[0].Image? then [ps[0].url] else []) + Addresses(ps[1..])
  }

  function Oobs(urls: seq<string>): seq<Payload> {
    seq(|urls|, i requires 0 <= i < |urls| => Oob(urls[i]))
  }

  /** What wrapIncomingMedia returns. */
  ghost function Wrapped(find: Finder, msg: Message, mode: OobMode): seq<Message>
    requires Sane(find)
  {
    if msg.xhtml.None? || Find(msg.xhtml.value, "<img", 0).None? then [msg]
    else WrappedText(find, msg, mode, msg.xhtml.value)
  }

  ghost function WrappedText(find: Finder, msg: Message, mode: OobMode, xhtml: string): seq<Message>
    requires Sane(find)
  {
    var ps := Pieces(find, xhtml);
    match mode
    case Split => Deliver(msg, ps, 0)
    case WrapAll => [msg.(payloads := msg.payloads + Oobs(Addresses(ps)))]
    case Exclusive =>
      var urls := Addresses(ps);
      if urls == [] then [msg] else [msg.(payloads := msg.payloads + [Oob(urls[0])], body := urls[0])]
  }

  // -------------------------------------------------------------- one image at a time

  lemma {:induction false} DeliverImage(msg: Message, image: Piece, rest: seq<Piece>, pos: nat)
    requires image.Image? && pos <= |msg.body|
    ensures Deliver(msg, [image] + rest, pos) == [ImageMessage(msg, image)] + Deliver(msg, rest, pos)
  {
    assert ([image] + rest)[1..] == rest;
  }

  lemma {:induction false} DeliverTextImage(msg: Message, t: string, image: Piece, rest: seq<Piece>, pos: nat)
    requires image.Image? && pos <= |msg.body|
    ensures var (before, next) := BodyBefore(msg.body, pos, image.url);
      Deliver(msg, [Text(t), image] + rest, pos) ==
      TextMessage(msg, t, before) + [ImageMessage(msg, image)] + Deliver(msg, rest, next)
  {
    hide TextMessage, ImageMessage, BodyBefore;
    var ps := [Text(t), image] + rest;
    assert ps[2..] == rest && ps[0] == Text(t) && ps[1] == image;
  }

  lemma {:induction false} PiecesAre(find: Finder, s: string)
    requires Sane(find) && find(s).Some?
    ensures var m := find(s).value;
      var image := Image(s[m.start..m.end], m.url);
      Pieces(find, s) == (if m.start > 0 then [Text(s[..m.start]), image] else [image]) + Pieces(find, s[m.end..])
  {
    var m := find(s).value;
    if m.start > 0 {
      assert [Text(s[..m.start])] + [Image(s[m.start..m.end], m.url)] == [Text(s[..m.start]), Image(s[m.start..m.end], m.url)];
    } else {
      assert [] + [Image(s[m.start..m.end], m.url)] == [Image(s[m.start..m.end], m.url)];
    }
  }

  /** The plain text that goes with the text before a match, and where it goes on. */
  function BodyAt(body: string, pos: nat, m: Match): (r: (string, nat))
    requires pos <= |body|
    ensures pos <= r.1 <= |body|
  {
    if m.start > 0 then BodyBefore(body, pos, m.url) else ("", pos)
  }

  /** What the split mode sends for one match and the text before it. */
  function SplitAt(msg: Message, s: string, pos: nat, m: Match): seq<Message>
    requires m.start <= m.end <= |s| && pos <= |msg.body|
  {
    (if m.start > 0 then TextMessage(msg, s[..m.start], BodyAt(msg.body, pos, m).0) else []) +
    [ImageMessage(msg, Image(s[m.start..m.end], m.url))]
  }

  lemma {:induction false} DeliverMatch(find: Finder, msg: Message, s: string, pos: nat)
    requires Sane(find) && find(s).Some? && pos <= |msg.body|
    ensures var m := find(s).value;
      Deliver(msg, Pieces(find, s), pos) ==
      SplitAt(msg, s, pos, m) + Deliver(msg, Pieces(find, s[m.end..]), BodyAt(msg.body, pos, m).1)
  {
    var m := find(s).value;
    var image := Image(s[m.start..m.end], m.url);
    PiecesAre(find, s);
    hide Pieces, Deliver, TextMessage, ImageMessage, BodyBefore;
    if m.start > 0 {
      DeliverTextImage(msg, s[..m.start], image, Pieces(find, s[m.end..]), pos);
    } else {
      DeliverImage(msg, image, Pieces(find, s[m.end..]), pos);
      assert [] + [ImageMessage(msg, image)] == [ImageMessage(msg, image)];
    }
  }

  lemma {:induction false} DeliverEnd(find: Finder, msg: Message, s: string, pos: nat)
    requires Sane(find) && find(s).None? && pos <= |msg.body|
    ensures Deliver(msg, Pieces(find, s), pos) == if s != "" then TextMessage(msg, s, msg.body[pos..]) else []
  {
    hide TextMessage;
    if s != "" {
      assert Pieces(find, s) == [Text(s)];
      assert Deliver(msg, [Text(s)][1..], pos) == [];
    }
  }

  lemma {:induction false} AddressesOne(image: Piece, rest: seq<Piece>, t: string)
    requires image.Image?
    ensures Addresses([image] + rest) == [image.url] + Addresses(rest)
    ensures Addresses([Text(t), image] + rest) == [image.url] + Addresses(rest)
  {
    assert ([image] + rest)[1..] == rest;
    assert ([Text(t), image] + rest)[1..] == [image] + rest;
  }

  lemma {:induction false} AddressesMatch(find: Finder, s: string)
    requires Sane(find)
    ensures Addresses(Pieces(find, s)) ==
      match find(s)
      case None => []
      case Some(m) => [m.url] + Addresses(Pieces(find, s[m.end..]))
  {
    if find(s).Some? {
      var m := find(s).value;
      PiecesAre(find, s);
      hide Pieces, Addresses;
      AddressesOne(Image(s[m.start..m.end], m.url), Pieces(find, s[m.end..]), s[..m.start]);
    }
  }

  // ------------------------------------------------------------------------ method

  /** The variables of the loop. */
  datatype Loop = Loop(xhtmlPos: nat, bodyPos: nat, current: Message, firstUrl: string, matchCount: nat, result: seq<Message>)

  /** What the loop keeps, mode by mode. */
  ghost predicate SplitKept(find: Finder, msg: Message, xhtml: string, l: Loop)
    requires Sane(find) && l.xhtmlPos <= |xhtml| && l.bodyPos <= |msg.body|
  {
    l.current == msg &&
    l.result + Deliver(msg, Pieces(find, xhtml[l.xhtmlPos..]), l.bodyPos) == Deliver(msg, Pieces(find, xhtml), 0)
  }

  ghost predicate WrapKept(find: Finder, msg: Message, xhtml: string, l: Loop)
    requires Sane(find) && l.xhtmlPos <= |xhtml|
  {
    l.result == [] && l.current == msg.(payloads := l.current.payloads) &&
    l.current.payloads + Oobs(Addresses(Pieces(find, xhtml[l.xhtmlPos..]))) == msg.payloads + Oobs(Addresses(Pieces(find, xhtml)))
  }

  ghost predicate Kept(find: Finder, msg: Message, mode: OobMode, xhtml: string, l: Loop)
    requires Sane(find)
  {
    l.xhtmlPos <= |xhtml| && l.bodyPos <= |msg.body| &&
    match mode
    case Split => SplitKept(find, msg, xhtml, l)
    case WrapAll => WrapKept(find, msg, xhtml, l)
    case Exclusive => l == Loop(0, 0, msg, "", 0, [])
  }

  lemma {:induction false} SplitStep(find: Finder, msg: Message, xhtml: string, l: Loop, l': Loop)
    requires Sane(find) && l.xhtmlPos <= |xhtml| && l.bodyPos <= |msg.body| && SplitKept(find, msg, xhtml, l)
    requires find(xhtml[l.xhtmlPos..]).Some?
    requires var m := find(xhtml[l.xhtmlPos..]).value;
      l'.xhtmlPos == l.xhtmlPos + m.end && l'.bodyPos == BodyAt(msg.body, l.bodyPos, m).1 && l'.current == msg &&
      l'.result == l.result + SplitAt(msg, xhtml[l.xhtmlPos..], l.bodyPos, m)
    ensures l'.xhtmlPos <= |xhtml| && SplitKept(find, msg, xhtml, l')
  {
    var s := xhtml[l.xhtmlPos..];
    var m := find(s).value;
    assert s[m.end..] == xhtml[l'.xhtmlPos..];
    hide Deliver, Pieces, SplitAt, BodyAt;
    DeliverMatch(find, msg, s, l.bodyPos);
    SeqAssoc(l.result, SplitAt(msg, s, l.bodyPos, m), Deliver(msg, Pieces(find, s[m.end..]), l'.bodyPos));
  }

  lemma {:induction false} OobsOne(url: string, urls: seq<string>)
    ensures Oobs([url] + urls) == [Oob(url)] + Oobs(urls)
  {
  }

  lemma {:induction false} WrapStep(find: Finder, msg: Message, xhtml: string, l: Loop, l': Loop)
    requires Sane(find) && l.xhtmlPos <= |xhtml| && WrapKept(find, msg, xhtml, l)
    requires find(xhtml[l.xhtmlPos..]).Some?
    requires var m := find(xhtml[l.xhtmlPos..]).value;
      l'.xhtmlPos == l.xhtmlPos + m.end && l'.result == l.result &&
      l'.current == l.current.(payloads := l.current.payloads + [Oob(m.url)])
    ensures l'.xhtmlPos <= |xhtml| && WrapKept(find, msg, xhtml, l')
  {
    var s := xhtml[l.xhtmlPos..];
    var m := find(s).value;
    assert s[m.end..] == xhtml[l'.xhtmlPos..];
    hide Pieces, Addresses, Oobs;
    AddressesMatch(find, s);
    OobsOne(m.url, Addresses(Pieces(find, s[m.end..])));
    SeqAssoc(l.current.payloads, [Oob(m.url)], Oobs(Addresses(Pieces(find, s[m.end..]))));
  }

  /** One turn of the loop; stop is the break of the exclusive mode. */
  method HandleMatch(find: Finder, msg: Message, mode: OobMode, xhtml: string, l: Loop, m: Match) returns (l': Loop, stop: bool)
    requires Sane(find) && Kept(find, msg, mode, xhtml, l) && find(xhtml[l.xhtmlPos..]) == Some(m)
    ensures stop == (mode == Exclusive)
    ensures !stop ==> Kept(find, msg, mode, xhtml, l') && l'.xhtmlPos == l.xhtmlPos + m.end
    ensures stop ==> l' == Loop(0, 0, msg.(payloads := msg.payloads + [Oob(m.url)]), m.url, 1, [])
  {
    hide SplitKept, WrapKept, TextMessage, ImageMessage, BodyBefore;
    var rest := xhtml[l.xhtmlPos..];
    l' := l.(matchCount := l.matchCount + 1, firstUrl := if l.firstUrl == "" then m.url else l.firstUrl);
    if mode == Split && m.start != 0 {
      var (before, next) := BodyBefore(msg.body, l.bodyPos, m.url);
      l' := l'.(bodyPos := next, result := l'.result + TextMessage(msg, rest[..m.start], before));
    }
    if mode == Split {
      l' := l'.(result := l'.result + [ImageMessage(msg, Image(rest[m.start..m.end], m.url))]);
    } else {
      l' := l'.(current := l'.current.(payloads := l'.current.payloads + [Oob(m.url)]));
    }
    stop := mode == Exclusive;
    if !stop {
      l' := l'.(xhtmlPos := l'.xhtmlPos + m.end);
    }
    if mode == Split {
      assert SplitAt(msg, rest, l.bodyPos, m) ==
        (if m.start > 0 then TextMessage(msg, rest[..m.start], BodyAt(msg.body, l.bodyPos, m).0) else []) +
        [ImageMessage(msg, Image(rest[m.start..m.end], m.url))];
      CurrentIs(find, msg, xhtml, l);
      SplitStep(find, msg, xhtml, l, l');
    } else if mode == WrapAll {
      WrapStep(find, msg, xhtml, l, l');
    }
  }

  lemma {:induction false} CurrentIs(find: Finder, msg: Message, xhtml: string, l: Loop)
    requires Sane(find) && l.xhtmlPos <= |xhtml| && l.bodyPos <= |msg.body| && SplitKept(find, msg, xhtml, l)
    ensures l.current == msg
  {
  }

  lemma {:induction false} LoopStarts(find: Finder, msg: Message, mode: OobMode, xhtml: string)
    requires Sane(find)
    ensures Kept(find, msg, mode, xhtml, Loop(0, 0, msg, "", 0, []))
  {
    assert xhtml[0..] == xhtml;
    hide Deliver, Pieces, Addresses, Oobs;
  }

  lemma {:induction false} SplitEnds(find: Finder, msg: Message, xhtml: string, l: Loop)
    requires Sane(find) && l.xhtmlPos <= |xhtml| && l.bodyPos <= |msg.body| && SplitKept(find, msg, xhtml, l)
    requires find(xhtml[l.xhtmlPos..]).None?
    ensures Deliver(msg, Pieces(find, xhtml), 0) ==
      if l.xhtmlPos != |xhtml| then l.result + TextMessage(msg, xhtml[l.xhtmlPos..], msg.body[l.bodyPos..]) else l.result
  {
    DeliverEnd(find, msg, xhtml[l.xhtmlPos..], l.bodyPos);
    hide Deliver, Pieces, TextMessage;
  }

  lemma {:induction false} WrapEnds(find: Finder, msg: Message, xhtml: string, l: Loop)
    requires Sane(find) && l.xhtmlPos <= |xhtml| && WrapKept(find, msg, xhtml, l)
    requires find(xhtml[l.xhtmlPos..]).None?
    ensures l.result == [] && l.current == msg.(payloads := msg.payloads + Oobs(Addresses(Pieces(find, xhtml))))
  {
    AddressesMatch(find, xhtml[l.xhtmlPos..]);
    assert Oobs([]) == [];
  }

  /** The exclusive mode left the loop at its first match. */
  ghost predicate Stopped(find: Finder, msg: Message, mode: OobMode, xhtml: string, l: Loop)
    requires Sane(find)
  {
    var urls := Addresses(Pieces(find, xhtml));
    mode == Exclusive && urls != [] && l == Loop(0, 0, msg.(payloads := msg.payloads + [Oob(urls[0])]), urls[0], 1, [])
  }

  lemma {:induction false} FirstStops(find: Finder, msg: Message, mode: OobMode, xhtml: string, l: Loop, m: Match, l': Loop)
    requires Sane(find) && mode == Exclusive && Kept(find, msg, mode, xhtml, l) && find(xhtml[l.xhtmlPos..]) == Some(m)
    requires l' == Loop(0, 0, msg.(payloads := msg.payloads + [Oob(m.url)]), m.url, 1, [])
    ensures Stopped(find, msg, mode, xhtml, l')
  {
    assert xhtml[0..] == xhtml;
    AddressesMatch(find, xhtml);
  }

  lemma {:induction false} InText(find: Finder, msg: Message, mode: OobMode, xhtml: string, l: Loop)
    requires Sane(find) && Kept(find, msg, mode, xhtml, l)
    ensures l.xhtmlPos <= |xhtml| && l.bodyPos <= |msg.body|
    ensures find(xhtml[l.xhtmlPos..]).Some? ==> 0 < find(xhtml[l.xhtmlPos..]).value.end <= |xhtml| - l.xhtmlPos
  {
  }

  /** After the loop: the text that remains, or the one message with its payloads. */
  method Finish(find: Finder, msg: Message, mode: OobMode, xhtml: string, l: Loop) returns (result: seq<Message>)
    requires Sane(find)
    requires Stopped(find, msg, mode, xhtml, l) || (Kept(find, msg, mode, xhtml, l) && find(xhtml[l.xhtmlPos..]).None?)
    ensures result == WrappedText(find, msg, mode, xhtml)
  {
    hide Deliver, Pieces, Addresses, Oobs, SplitKept, WrapKept, TextMessage;
    if mode == Split {
      SplitEnds(find, msg, xhtml, l);
      result := l.result;
      if l.xhtmlPos != |xhtml| {
        result := result + TextMessage(msg, xhtml[l.xhtmlPos..], msg.body[l.bodyPos..]);
      }
      return;
    }
    if mode == WrapAll {
      WrapEnds(find, msg, xhtml, l);
    } else if l.matchCount == 0 {
      assert xhtml[0..] == xhtml;
      AddressesMatch(find, xhtml);
    }
    var current := l.current;
    if l.matchCount != 0 && mode == Exclusive {
      current := current.(body := l.firstUrl);
    }
    result := l.result + [current];
  }

  method WrapText(find: Finder, msg: Message, mode: OobMode, xhtml: string) returns (result: seq<Message>)
    requires Sane(find)
    ensures result == WrappedText(find, msg, mode, xhtml)
  {
    hide WrappedText, Kept, Stopped;
    var l := Loop(0, 0, msg, "", 0, []);
    LoopStarts(find, msg, mode, xhtml);
    assert xhtml[0..] == xhtml;
    var found := find(xhtml);
    var stop := false;
    while found.Some? && !stop
      invariant stop ==> Stopped(find, msg, mode, xhtml, l)
      invariant !stop ==> l.xhtmlPos <= |xhtml| && found == find(xhtml[l.xhtmlPos..])
      invariant !stop ==> Kept(find, msg, mode, xhtml, l)
      decreases !stop, |xhtml| - l.xhtmlPos
    {
      ghost var before := l;
      InText(find, msg, mode, xhtml, l);
      l, stop := HandleMatch(find, msg, mode, xhtml, l, found.value);
      if stop {
        FirstStops(find, msg, mode, xhtml, before, found.value, l);
      } else {
        InText(find, msg, mode, xhtml, l);
        found := find(xhtml[l.xhtmlPos..]);
      }
    }
    result := Finish(find, msg, mode, xhtml, l);
  }

  /** NetworkPluginServer::wrapIncomingMedia.  The message is a value here; the source adds
      the payload to the message it was given when it does not split. */
  method WrapIncomingMedia(find: Finder, msg: Message, mode: OobMode) returns (result: seq<Message>)
    requires Sane(find)
    ensures result == Wrapped(find, msg, mode)
  {
    if msg.xhtml.None? {
      return [msg];
    }
    if Find(msg.xhtml.value, "<img", 0).None? {
      return [msg];
    }
    result := WrapText(find, msg, mode, msg.xhtml.value);
  }

  // ------------------------------------------------------------ what split mode sends

  /** Split mode adds a payload to image messages only. */
  predicate ShowsImage(msg: Message, m: Message) {
    |m.payloads| > |msg.payloads|
  }

  function Images(msg: Message, ms: seq<Message>): seq<Message> {
    if ms == [] then [] else (if ShowsImage(msg, ms[0]) then [ms[0]] else []) + Images(msg, ms[1..])
  }

  function Others(msg: Message, ms: seq<Message>): seq<Message> {
    if ms == [] then [] else (if ShowsImage(msg, ms[0]) then [] else [ms[0]]) + Others(msg, ms[1..])
  }

  /** One message for each image: its address as plain text, its tag as XHTML, and the address
      as one more payload. */
  function ImagesOf(msg: Message, ps: seq<Piece>): seq<Message> {
    if ps == [] then [] else
    (if ps[0].Image? then [Message(body := ps[0].url, xhtml := Some(ps[0].tag), payloads := msg.payloads + [Oob(ps[0].url)])] else []) +
    ImagesOf(msg, ps[1..])
  }

  /** The plain text that goes with the first piece, a text, and where the rest of it starts: up
      to the first mention of the next image's address, nothing if there is none, and all that
      is left if no image follows. */
  function Stretch(body: string, ps: seq<Piece>, pos: nat): (r: (string, nat))
    requires pos <= |body| && ps != []
    ensures r.1 <= |body|
  {
    if |ps| == 1 || ps[1].Text? then (body[pos..], pos)
    else
      match Find(body, ps[1].url, pos)
      case None => ("", pos)
      case Some(k) => (body[pos..k], k + |ps[1].url|)
  }

  /** One message for each text of which anything is left after trimming, in XHTML or in the
      plain text that goes with it. */
  function OthersOf(msg: Message, ps: seq<Piece>, pos: nat): seq<Message>
    requires pos <= |msg.body|
    decreases |ps|
  {
    if ps == [] then []
    else if ps[0].Image? then OthersOf(msg, ps[1..], pos)
    else
      var (plain, next) := Stretch(msg.body, ps, pos);
      var x, b := XhtmlTrim(ps[0].s), PlaintextTrim(plain);
      (if x == "" && b == "" then [] else [Message(body := b, xhtml := Some(x), payloads := msg.payloads)]) +
      OthersOf(msg, ps[1..], next)
  }

  /** The texts of the other messages that have any. */
  function Texts(msg: Message, ms: seq<Message>): seq<string> {
    if ms == [] then [] else
    (if !ShowsImage(msg, ms[0]) && ms[0].xhtml.Some? && ms[0].xhtml.value != "" then [ms[0].xhtml.value] else []) +
    Texts(msg, ms[1..])
  }

  function TextsOf(ps: seq<Piece>): seq<string> {
    if ps == [] then [] else
    (if ps[0].Text? && XhtmlTrim(ps[0].s) != "" then [XhtmlTrim(ps[0].s)] else []) + TextsOf(ps[1..])
  }

  lemma {:induction false} SortsBoth(msg: Message, a: seq<Message>, b: seq<Message>)
    ensures Images(msg, a + b) == Images(msg, a) + Images(msg, b)
    ensures Texts(msg, a + b) == Texts(msg, a) + Texts(msg, b)
    ensures Others(msg, a + b) == Others(msg, a) + Others(msg, b)
  {
    if a == [] {
      assert a + b == b;
    } else {
      assert (a + b)[1..] == a[1..] + b;
      SortsBoth(msg, a[1..], b);
    }
  }

  function TextSent(msg: Message, s: string, plain: string): seq<Message> {
    var x, b := XhtmlTrim(s), PlaintextTrim(plain);
    if x == "" && b == "" then [] else [Message(body := b, xhtml := Some(x), payloads := msg.payloads)]
  }

  lemma {:induction false} SortsText(msg: Message, s: string, body: string)
    ensures Images(msg, TextMessage(msg, s, body)) == []
    ensures Texts(msg, TextMessage(msg, s, body)) == if XhtmlTrim(s) != "" then [XhtmlTrim(s)] else []
    ensures Others(msg, TextMessage(msg, s, body)) == TextSent(msg, s, body)
  {
    hide XhtmlTrim, PlaintextTrim;
    var out := TextMessage(msg, s, body);
    if out != [] {
      assert out[1..] == [];
    }
  }

  lemma {:induction false} SortsImage(msg: Message, p: Piece)
    requires p.Image?
    ensures Images(msg, [ImageMessage(msg, p)]) == ImagesOf(msg, [p])
    ensures Texts(msg, [ImageMessage(msg, p)]) == [] && Others(msg, [ImageMessage(msg, p)]) == []
  {
    assert [p][1..] == [];
    var m := ImageMessage(msg, p);
    assert ShowsImage(msg, m) && [m][1..] == [];
  }

  lemma {:induction false} SortsTextImage(msg: Message, s: string, body: string, p: Piece)
    requires p.Image?
    ensures Images(msg, TextMessage(msg, s, body) + [ImageMessage(msg, p)]) == ImagesOf(msg, [p])
    ensures Texts(msg, TextMessage(msg, s, body) + [ImageMessage(msg, p)]) == if XhtmlTrim(s) != "" then [XhtmlTrim(s)] else []
    ensures Others(msg, TextMessage(msg, s, body) + [ImageMessage(msg, p)]) == TextSent(msg, s, body)
  {
    hide TextMessage, ImageMessage, XhtmlTrim, Images, Texts, Others, TextSent, ImagesOf;
    SortsText(msg, s, body);
    SortsImage(msg, p);
    SortsBoth(msg, TextMessage(msg, s, body), [ImageMessage(msg, p)]);
  }

  lemma {:induction false} PiecesTwo(msg: Message, ps: seq<Piece>)
    requires |ps| > 1 && ps[0].Text? && ps[1].Image?
    ensures ImagesOf(msg, ps) == ImagesOf(msg, [ps[1]]) + ImagesOf(msg, ps[2..])
    ensures TextsOf(ps) == (if XhtmlTrim(ps[0].s) != "" then [XhtmlTrim(ps[0].s)] else []) + TextsOf(ps[2..])
  {
    hide XhtmlTrim;
    assert ps[1..][1..] == ps[2..] && [ps[1]][1..] == [];
  }

  lemma {:induction false} OthersTwo(msg: Message, ps: seq<Piece>, pos: nat)
    requires |ps| > 1 && ps[0].Text? && ps[1].Image? && pos <= |msg.body|
    ensures var (before, next) := BodyBefore(msg.body, pos, ps[1].url);
      OthersOf(msg, ps, pos) == TextSent(msg, ps[0].s, before) + OthersOf(msg, ps[2..], next)
  {
    hide XhtmlTrim, PlaintextTrim, Find;
    assert ps[1..][1..] == ps[2..];
  }

  lemma {:induction false} PiecesOne(msg: Message, ps: seq<Piece>)
    requires ps != [] && ps[0].Image?
    ensures ImagesOf(msg, ps) == ImagesOf(msg, [ps[0]]) + ImagesOf(msg, ps[1..])
    ensures TextsOf(ps) == TextsOf(ps[1..])
  {
    assert [ps[0]][1..] == [];
  }

  /** Whatever the plain text: the messages with one more payload are one for each image, in
      order, with its address as plain text and its tag as XHTML; the others are one for each
      text piece of which something is left, in order, both parts trimmed. */
  lemma {:induction false} SplitDelivers(msg: Message, ps: seq<Piece>, pos: nat)
    requires pos <= |msg.body|
    ensures Images(msg, Deliver(msg, ps, pos)) == ImagesOf(msg, ps)
    ensures Others(msg, Deliver(msg, ps, pos)) == OthersOf(msg, ps, pos)
    ensures Texts(msg, Deliver(msg, ps, pos)) == TextsOf(ps)
    decreases |ps|
  {
    hide TextMessage, ImageMessage, XhtmlTrim, PlaintextTrim, BodyBefore, Images, Texts, Others, Find, ImagesOf, TextSent;
    if ps == [] {
      SortsNone(msg);
    } else if ps[0].Image? {
      SplitDelivers(msg, ps[1..], pos);
      SortsImage(msg, ps[0]);
      SortsBoth(msg, [ImageMessage(msg, ps[0])], Deliver(msg, ps[1..], pos));
      PiecesOne(msg, ps);
    } else if |ps| > 1 && ps[1].Image? {
      var (before, next) := BodyBefore(msg.body, pos, ps[1].url);
      SplitDelivers(msg, ps[2..], next);
      SortsTextImage(msg, ps[0].s, before, ps[1]);
      SortsBoth(msg, TextMessage(msg, ps[0].s, before) + [ImageMessage(msg, ps[1])], Deliver(msg, ps[2..], next));
      PiecesTwo(msg, ps);
      OthersTwo(msg, ps, pos);
    } else {
      SplitDelivers(msg, ps[1..], pos);
      SortsText(msg, ps[0].s, msg.body[pos..]);
      SortsBoth(msg, TextMessage(msg, ps[0].s, msg.body[pos..]), Deliver(msg, ps[1..], pos));
      LastText(msg, ps, pos);
    }
  }

  lemma {:induction false} LastText(msg: Message, ps: seq<Piece>, pos: nat)
    requires ps != [] && ps[0].Text? && (|ps| == 1 || ps[1].Text?) && pos <= |msg.body|
    ensures OthersOf(msg, ps, pos) == TextSent(msg, ps[0].s, msg.body[pos..]) + OthersOf(msg, ps[1..], pos)
    ensures ImagesOf(msg, ps) == ImagesOf(msg, ps[1..])
    ensures TextsOf(ps) == (if XhtmlTrim(ps[0].s) != "" then [XhtmlTrim(ps[0].s)] else []) + TextsOf(ps[1..])
  {
    hide XhtmlTrim, PlaintextTrim;
  }

  /** The messages of the pieces in their order, piece by piece. */
  function InTurn(msg: Message, ps: seq<Piece>, pos: nat): seq<Message>
    requires pos <= |msg.body|
    decreases |ps|
  {
    if ps == [] then []
    else if ps[0].Image? then
      [Message(body := ps[0].url, xhtml := Some(ps[0].tag), payloads := msg.payloads + [Oob(ps[0].url)])] +
      InTurn(msg, ps[1..], pos)
    else
      var (plain, next) := Stretch(msg.body, ps, pos);
      TextSent(msg, ps[0].s, plain) + InTurn(msg, ps[1..], next)
  }

  lemma {:induction false} DeliversInTurn(msg: Message, ps: seq<Piece>, pos: nat)
    requires pos <= |msg.body|
    ensures Deliver(msg, ps, pos) == InTurn(msg, ps, pos)
    decreases |ps|
  {
    hide XhtmlTrim, PlaintextTrim, Find;
    if ps == [] {
    } else if ps[0].Image? {
      DeliversInTurn(msg, ps[1..], pos);
    } else if |ps| > 1 && ps[1].Image? {
      var (before, next) := BodyBefore(msg.body, pos, ps[1].url);
      assert ps[1..][1..] == ps[2..] && ps[1..][0] == ps[1];
      DeliversInTurn(msg, ps[2..], next);
      assert InTurn(msg, ps[1..], next) == [ImageMessage(msg, ps[1])] + InTurn(msg, ps[2..], next);
      hide ImageMessage, InTurn;
      TurnAssoc(TextMessage(msg, ps[0].s, before), [ImageMessage(msg, ps[1])], Deliver(msg, ps[2..], next));
    } else {
      DeliversInTurn(msg, ps[1..], pos);
    }
  }

  lemma {:induction false} TurnAssoc(a: seq<Message>, b: seq<Message>, c: seq<Message>)
    ensures a + b + c == a + (b + c)
  {
  }

  /** What the messages show, in their order: the XHTML of each that has any. */
  function Shown(ms: seq<Message>): seq<string> {
    if ms == [] then [] else
    (if ms[0].xhtml.Some? && ms[0].xhtml.value != "" then [ms[0].xhtml.value] else []) + Shown(ms[1..])
  }

  /** The trimmed texts and the image tags of the pieces, in their order. */
  function ShownOf(ps: seq<Piece>): seq<string> {
    if ps == [] then [] else
    var x := if ps[0].Image? then ps[0].tag else XhtmlTrim(ps[0].s);
    (if x != "" then [x] else []) + ShownOf(ps[1..])
  }

  lemma {:induction false} ShownBoth(a: seq<Message>, b: seq<Message>)
    ensures Shown(a + b) == Shown(a) + Shown(b)
  {
    if a == [] {
      assert a + b == b;
    } else {
      assert (a + b)[1..] == a[1..] + b;
      ShownBoth(a[1..], b);
    }
  }

  lemma {:induction false} ShownOne(m: Message)
    ensures Shown([m]) == if m.xhtml.Some? && m.xhtml.value != "" then [m.xhtml.value] else []
  {
  }

  /** Texts and images are shown in the order they have in the original message. */
  lemma {:induction false} ShownInOrder(msg: Message, ps: seq<Piece>, pos: nat)
    requires pos <= |msg.body|
    ensures Shown(Deliver(msg, ps, pos)) == ShownOf(ps)
    decreases |ps|
  {
    DeliversInTurn(msg, ps, pos);
    hide Deliver, XhtmlTrim, PlaintextTrim, Find;
    if ps == [] {
    } else if ps[0].Image? {
      DeliversInTurn(msg, ps[1..], pos);
      ShownInOrder(msg, ps[1..], pos);
      var m := Message(body := ps[0].url, xhtml := Some(ps[0].tag), payloads := msg.payloads + [Oob(ps[0].url)]);
      ShownOne(m);
      ShownBoth([m], InTurn(msg, ps[1..], pos));
    } else {
      var (plain, next) := Stretch(msg.body, ps, pos);
      DeliversInTurn(msg, ps[1..], next);
      ShownInOrder(msg, ps[1..], next);
      var x, b := XhtmlTrim(ps[0].s), PlaintextTrim(plain);
      ShownOne(Message(body := b, xhtml := Some(x), payloads := msg.payloads));
      ShownBoth(TextSent(msg, ps[0].s, plain), InTurn(msg, ps[1..], next));
      hide Stretch;
    }
  }

  lemma {:induction false} SortsNone(msg: Message)
    ensures Images(msg, []) == [] && Texts(msg, []) == [] && Others(msg, []) == [] && ImagesOf(msg, []) == []
  {
  }

  lemma {:induction false} TrimKeepsLetters(s: string, k: nat)
    requires k < |s| && s[k] == 'm'
    ensures XhtmlTrim(s) != ""
  {
    TrimCuts(s);
    var a: string, b: string :| s == a + XhtmlTrim(s) + b && AllTrimmable(a) && AllTrimmable(b);
    hide XhtmlTrim;
    assert !Trimmable('m');
  }

  /** Some message always results, in every mode. */
  lemma {:induction false} NeverEmpty(find: Finder, msg: Message, mode: OobMode)
    requires Sane(find)
    ensures Wrapped(find, msg, mode) != []
  {
    if msg.xhtml.Some? && Find(msg.xhtml.value, "<img", 0).Some? && mode == Split {
      var xhtml := msg.xhtml.value;
      if find(xhtml).Some? {
        DeliverMatch(find, msg, xhtml, 0);
      } else {
        var k := Find(xhtml, "<img", 0).value;
        assert xhtml[k..k + 4][2] == 'm';
        TrimKeepsLetters(xhtml, k + 2);
        DeliverEnd(find, msg, xhtml, 0);
        hide XhtmlTrim;
      }
    }
  }

  // ------------------------------------------------------------------ the other modes

  function ImagePieces(ps: seq<Piece>): seq<Piece> {
    if ps == [] then [] else (if ps[0].Image? then [ps[0]] else []) + ImagePieces(ps[1..])
  }

  lemma {:induction false} AddressesAre(ps: seq<Piece>)
    ensures |Addresses(ps)| == |ImagePieces(ps)|
    ensures forall i :: 0 <= i < |Addresses(ps)| ==> ImagePieces(ps)[i].Image? && Addresses(ps)[i] == ImagePieces(ps)[i].url
  {
    if ps != [] {
      AddressesAre(ps[1..]);
    }
  }

  /** A message without a text, or whose text nowhere says "<img", passes as it is. */
  lemma {:induction false} PassesThrough(find: Finder, msg: Message, mode: OobMode)
    requires Sane(find) && (msg.xhtml.None? || forall i: nat :: !IsAt(msg.xhtml.value, "<img", i))
    ensures Wrapped(find, msg, mode) == [msg]
  {
    hide Pieces, Deliver;
  }

  /** In the mode that wraps all, the one message keeps its texts and gains one payload for each
      image, in order. */
  lemma {:induction false} WrapAllMeans(find: Finder, msg: Message, i: nat)
    requires Sane(find) && msg.xhtml.Some? && IsAt(msg.xhtml.value, "<img", i)
    ensures var images := ImagePieces(Pieces(find, msg.xhtml.value));
      var r := Wrapped(find, msg, WrapAll);
      && |r| == 1 && r[0].body == msg.body && r[0].xhtml == msg.xhtml
      && |r[0].payloads| == |msg.payloads| + |images| && r[0].payloads[..|msg.payloads|] == msg.payloads
      && forall k :: 0 <= k < |images| ==> images[k].Image? && r[0].payloads[|msg.payloads| + k] == Oob(images[k].url)
  {
    AddressesAre(Pieces(find, msg.xhtml.value));
    hide Pieces, Deliver, Addresses, ImagePieces;
  }

  /** In the exclusive mode the first image's address becomes the plain text and the one new
      payload; without an image nothing changes. */
  lemma {:induction false} ExclusiveMeans(find: Finder, msg: Message, i: nat)
    requires Sane(find) && msg.xhtml.Some? && IsAt(msg.xhtml.value, "<img", i)
    ensures var images := ImagePieces(Pieces(find, msg.xhtml.value));
      var r := Wrapped(find, msg, Exclusive);
      if images == [] then r == [msg]
      else
        && images[0].Image? && |r| == 1 && r[0].body == images[0].url && r[0].xhtml == msg.xhtml
        && r[0].payloads == msg.payloads + [Oob(images[0].url)]
  {
    AddressesAre(Pieces(find, msg.xhtml.value));
    hide Pieces, Deliver, Addresses, ImagePieces;
  }

  /** An image piece is the finder's match in the text from the piece before it on, and what
      stands before it; behind the last image the finder matches nothing. */
  ghost predicate CutsAt(find: Finder, s: string, ps: seq<Piece>)
    decreases |ps|
  {
    match find(s)
    case None => (s == "" && ps == []) || (s != "" && ps == [Text(s)])
    case Some(m) =>
      m.start < m.end <= |s| &&
      var k := if m.start > 0 then 1 else 0;
      |ps| > k && (m.start > 0 ==> ps[0] == Text(s[..m.start])) &&
      ps[k].Image? && ps[k].url == m.url && ps[k].tag == s[m.start..m.end] && CutsAt(find, s[m.end..], ps[k + 1..])
  }

  lemma {:induction false} PiecesAreMatches(find: Finder, s: string)
    requires Sane(find)
    ensures CutsAt(find, s, Pieces(find, s))
    decreases |s|
  {
    if find(s).Some? {
      var m := find(s).value;
      PiecesAreMatches(find, s[m.end..]);
      PiecesAre(find, s);
      var ps, rest := Pieces(find, s), Pieces(find, s[m.end..]);
      hide Pieces;
      if m.start > 0 {
        assert ps[2..] == rest;
      } else {
        assert ps[1..] == rest;
      }
    }
  }
}
