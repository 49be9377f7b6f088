/** The gateway's base64: the alphabet and padding of section 4 of RFC 4648, and a decoder
    that reads padding as zero bits and then cuts trailing NUL bytes. */
module Base64 {
  import opened Wrappers

  type Sextet = v: int | 0 <= v < 64

  // ------------------------------------------------------------------- characters

  function Letter(v: Sextet): char {
    if v < 26 then 'A' + v as char
    else if v < 52 then 'a' + (v - 26) as char
    else if v < 62 then '0' + (v - 52) as char
    else if v == 62 then '+' else '/'
  }

  /** The six bits of a character; padding reads as zero, anything else is an error. */
  function Bits(c: char): Option<Sextet> {
    if 'A' <= c <= 'Z' then Some(c as int - 'A' as int)
    else if 'a' <= c <= 'z' then Some(c as int - 'a' as int + 26)
    else if '0' <= c <= '9' then Some(c as int - '0' as int + 52)
    else if c == '+' then Some(62)
    else if c == '/' then Some(63)
    else if c == '=' then Some(0)
    else None
  }

  lemma {:induction false} LetterBits(v: Sextet)
    ensures Bits(Letter(v)) == Some(v) && Letter(v) != '='
  {
  }

  /** The alphabet of table 1 of section 4 of RFC 4648, as ASCII codes. */
  lemma {:induction false} AlphabetIsStandard(v: Sextet)
    ensures Letter(v) as int ==
      if v <= 25 then 65 + v else if v <= 51 then 71 + v else if v <= 61 then v - 4 else if v == 62 then 43 else 47
  {
  }

  // ------------------------------------------------------------------- bit groups

  function First(a: byte): Sextet { a / 4 }
  function Second(a: byte, b: byte): Sextet { a % 4 * 16 + b / 16 }
  function Third(b: byte, c: byte): Sextet { b % 16 * 4 + c / 64 }
  function Fourth(c: byte): Sextet { c % 64 }

  function Byte1(p: Sextet, q: Sextet): byte { p * 4 + q / 16 }
  function Byte2(q: Sextet, r: Sextet): byte { q % 16 * 16 + r / 4 }
  function Byte3(r: Sextet, s: Sextet): byte { r % 4 * 64 + s }

  lemma {:induction false} Regroup1(a: byte, b: byte)
    ensures Byte1(First(a), Second(a, b)) == a
  {
  }

  lemma {:induction false} Regroup2(a: byte, b: byte, c: byte)
    ensures Byte2(Second(a, b), Third(b, c)) == b
  {
    assert Second(a, b) % 16 == b / 16;
    assert Third(b, c) / 4 == b % 16;
  }

  lemma {:induction false} Regroup3(b: byte, c: byte)
    ensures Byte3(Third(b, c), Fourth(c)) == c
  {
    assert Third(b, c) % 4 == c / 64;
  }

  /** Four sextets are the number that their three bytes are, most significant first. */
  lemma {:induction false} GroupValue(a: byte, b: byte, c: byte)
    ensures ((First(a) * 64 + Second(a, b)) * 64 + Third(b, c)) * 64 + Fourth(c) == (a * 256 + b) * 256 + c
  {
    SameNumber(a, b, c);
  }

  lemma {:induction false} SameNumber(a: int, b: int, c: int)
    ensures ((a / 4 * 64 + (a % 4 * 16 + b / 16)) * 64 + (b % 16 * 4 + c / 64)) * 64 + c % 64 == (a * 256 + b) * 256 + c
  {
    assert a == a / 4 * 4 + a % 4 && b == b / 16 * 16 + b % 16 && c == c / 64 * 64 + c % 64;
  }

  // ----------------------------------------------------------------------- codec

  /** Four letters for three bytes; a short group is filled with zero bits and its missing
      letters are '='. */
  function Group(a: byte, b: byte, c: byte, n: nat): (r: string)
    ensures |r| == 4
  {
    [Letter(First(a)), Letter(Second(a, b)), if n < 2 then '=' else Letter(Third(b, c)), if n < 3 then '=' else Letter(Fourth(c))]
  }

  function Encode(s: seq<byte>): string {
    if |s| == 0 then ""
    else if |s| == 1 then Group(s[0], 0, 0, 1)
    else if |s| == 2 then Group(s[0], s[1], 0, 2)
    else Group(s[0], s[1], s[2], 3) + Encode(s[3..])
  }

  /** Byte i, or a zero byte behind the end. */
  function ByteOrZero(s: seq<byte>, i: nat): byte {
    if i < |s| then s[i] else 0
  }

  /** Section 4 of RFC 4648: each 24 bits, filled up with zero bits at the end, are written as four
      letters of six bits, most significant first, with '=' for letters of filling only. */
  lemma {:induction false} EncodedGroup(s: seq<byte>, i: nat) returns (p: Sextet, q: Sextet, r: Sextet, t: Sextet)
    requires 3 * i < |s|
    ensures ((p * 64 + q) * 64 + r) * 64 + t ==
      (ByteOrZero(s, 3 * i) * 256 + ByteOrZero(s, 3 * i + 1)) * 256 + ByteOrZero(s, 3 * i + 2)
    ensures |Encode(s)| >= 4 * i + 4 && Encode(s)[4 * i..4 * i + 4] ==
      [Letter(p), Letter(q), if 3 * i + 1 < |s| then Letter(r) else '=', if 3 * i + 2 < |s| then Letter(t) else '=']
  {
    var a, b, c := ByteOrZero(s, 3 * i), ByteOrZero(s, 3 * i + 1), ByteOrZero(s, 3 * i + 2);
    p, q, r, t := First(a), Second(a, b), Third(b, c), Fourth(c);
    GroupValue(a, b, c);
    hide First, Second, Third, Fourth, Encode, Letter;
    LaterGroup(s, i);
  }

  lemma {:induction false} LaterGroup(s: seq<byte>, i: nat)
    requires 3 * i < |s|
    ensures |Encode(s)| >= 4 * i + 4 && Encode(s)[4 * i..4 * i + 4] ==
      Group(ByteOrZero(s, 3 * i), ByteOrZero(s, 3 * i + 1), ByteOrZero(s, 3 * i + 2), if |s| < 3 * i + 3 then |s| - 3 * i else 3)
    decreases i
  {
    hide Group;
    if i > 0 {
      LaterGroup(s[3..], i - 1);
      Behind(Group(s[0], s[1], s[2], 3), Encode(s[3..]), 4 * i - 4);
    } else {
      FirstGroup(s);
    }
  }

  lemma {:induction false} Behind(head: string, tail: string, k: nat)
    requires |head| == 4 && k + 4 <= |tail|
    ensures (head + tail)[k + 4..k + 8] == tail[k..k + 4]
  {
  }

  lemma {:induction false} FirstGroup(s: seq<byte>)
    requires s != []
    ensures |Encode(s)| >= 4
    ensures Encode(s)[..4] == Group(s[0], ByteOrZero(s, 1), ByteOrZero(s, 2), if |s| < 3 then |s| else 3)
  {
    hide Group;
    if |s| >= 3 {
      assert Encode(s)[..4] == Group(s[0], s[1], s[2], 3);
    }
  }

  lemma {:induction false} EncodedLength(s: seq<byte>)
    ensures |Encode(s)| == (|s| + 2) / 3 * 4
  {
    hide Group;
    if |s| >= 3 {
      EncodedLength(s[3..]);
    }
  }

  function Ungroup(p: char, q: char, r: char, s: char): Option<seq<byte>> {
    var p', q', r', s' := Bits(p), Bits(q), Bits(r), Bits(s);
    if p'.None? || q'.None? || r'.None? || s'.None? then None
    else Some([Byte1(p'.value, q'.value), Byte2(q'.value, r'.value), Byte3(r'.value, s'.value)])
  }

  /** Three bytes out of every four characters, and the whole bytes of what is left over; a
      lone last character makes the decoder read beyond the text, which is an error too. */
  function DecodeRaw(s: string): Option<seq<byte>> {
    if s == "" then Some([])
    else if |s| == 1 then None
    else if |s| == 2 then Whole(Ungroup(s[0], s[1], 'A', 'A'), 1)
    else if |s| == 3 then Whole(Ungroup(s[0], s[1], s[2], 'A'), 2)
    else
      var first, rest := Ungroup(s[0], s[1], s[2], s[3]), DecodeRaw(s[4..]);
      if first.None? || rest.None? then None else Some(first.value + rest.value)
  }

  function Whole(group: Option<seq<byte>>, n: nat): Option<seq<byte>> {
    if group.Some? && n <= |group.value| then Some(group.value[..n]) else None
  }

  function TrimNuls(s: seq<byte>): seq<byte> {
    if s != [] && s[|s| - 1] == 0 then TrimNuls(s[..|s| - 1]) else s
  }

  function Decode(s: string): Option<seq<byte>> {
    match DecodeRaw(s)
    case None => None
    case Some(raw) => Some(TrimNuls(raw))
  }

  // ------------------------------------------------------------------- round trip

  lemma {:induction false} ThirdNothing(b: byte, c: byte)
    requires b == 0 && c == 0
    ensures Third(b, c) == 0
  {
  }

  lemma {:induction false} FourthNothing(c: byte)
    requires c == 0
    ensures Fourth(c) == 0
  {
  }

  lemma {:induction false} PaddingBits()
    ensures Bits('=') == Some(0)
  {
  }

  lemma {:induction false} Ungrouped(a: byte, b: byte, c: byte, n: nat)
    requires (n < 2 ==> b == 0) && (n < 3 ==> c == 0)
    ensures var g := Group(a, b, c, n); Ungroup(g[0], g[1], g[2], g[3]) == Some([a, b, c])
  {
    hide Letter, Bits, First, Second, Third, Fourth, Byte1, Byte2, Byte3;
    PaddingBits();
    if n < 2 { ThirdNothing(b, c); }
    if n < 3 { FourthNothing(c); }
    LetterBits(First(a));
    LetterBits(Second(a, b));
    LetterBits(Third(b, c));
    LetterBits(Fourth(c));
    Regroup1(a, b);
    Regroup2(a, b, c);
    Regroup3(b, c);
  }

  lemma {:induction false} DecodeOne(g: string)
    requires |g| == 4
    ensures DecodeRaw(g) == Ungroup(g[0], g[1], g[2], g[3])
  {
    var first := Ungroup(g[0], g[1], g[2], g[3]);
    hide Ungroup;
    assert DecodeRaw(g[4..]) == Some([]);
    if first.Some? {
      assert first.value + [] == first.value;
    }
  }

  function Zeros(n: nat): seq<byte> {
    seq(n, _ => 0)
  }

  function Padding(n: nat): nat {
    (3 - n % 3) % 3
  }

  lemma {:induction false} SamePaddingMod(n: nat)
    requires n >= 3
    ensures Padding(n) == Padding(n - 3)
  {
  }

  /** Decoding without the cut gives the input and one NUL for each padding character. */
  lemma {:induction false} RawRoundTrip(s: seq<byte>)
    ensures DecodeRaw(Encode(s)) == Some(s + Zeros(Padding(|s|)))
  {
    hide Group, Ungroup;
    if |s| == 1 {
      Ungrouped(s[0], 0, 0, 1);
      DecodeOne(Encode(s));
      assert s + Zeros(2) == [s[0], 0, 0];
    } else if |s| == 2 {
      Ungrouped(s[0], s[1], 0, 2);
      DecodeOne(Encode(s));
      assert s + Zeros(1) == [s[0], s[1], 0];
    } else if |s| >= 3 {
      RawRoundTrip(s[3..]);
      Ungrouped(s[0], s[1], s[2], 3);
      assert Encode(s)[4..] == Encode(s[3..]);
      SamePaddingMod(|s|);
      hide Padding, Encode;
      assert s + Zeros(Padding(|s|)) == [s[0], s[1], s[2]] + (s[3..] + Zeros(Padding(|s[3..]|)));
    }
  }

  /** The longest prefix that does not end in NUL. */
  lemma {:induction false} TrimNulsMeans(s: seq<byte>)
    ensures |TrimNuls(s)| <= |s| && TrimNuls(s) == s[..|TrimNuls(s)|]
    ensures TrimNuls(s) == [] || TrimNuls(s)[|TrimNuls(s)| - 1] != 0
    ensures forall i :: |TrimNuls(s)| <= i < |s| ==> s[i] == 0
    ensures TrimNuls(s) == s <==> s == [] || s[|s| - 1] != 0
  {
    if s != [] && s[|s| - 1] == 0 {
      TrimNulsMeans(s[..|s| - 1]);
    }
  }

  lemma {:induction false} TrimZeros(s: seq<byte>, n: nat)
    ensures TrimNuls(s + Zeros(n)) == TrimNuls(s)
  {
    if n == 0 {
      assert s + Zeros(0) == s;
    } else {
      TrimZeros(s, n - 1);
      assert (s + Zeros(n))[..|s| + n - 1] == s + Zeros(n - 1);
    }
  }

  /** decode(encode(s)) is s without its trailing NULs. */
  lemma {:induction false} RoundTrip(s: seq<byte>)
    ensures Decode(Encode(s)) == Some(TrimNuls(s))
  {
    RawRoundTrip(s);
    TrimZeros(s, Padding(|s|));
  }

  lemma {:induction false} GroupForm(a: byte, b: byte, c: byte, n: nat, i: nat)
    requires 1 <= n <= 3 && i < 4
    ensures Group(a, b, c, n)[i] == '=' <==> i > n
    ensures Bits(Group(a, b, c, n)[i]).Some?
  {
    LetterBits(First(a));
    LetterBits(Second(a, b));
    LetterBits(Third(b, c));
    LetterBits(Fourth(c));
  }

  /** The text ends in as many '=' as bytes are missing from its last group; all its other
      characters are letters of the alphabet. */
  lemma {:induction false} EncodedForm(s: seq<byte>, i: nat)
    requires i < |Encode(s)|
    ensures Encode(s)[i] == '=' <==> i >= |Encode(s)| - Padding(|s|)
    ensures Bits(Encode(s)[i]).Some?
  {
    hide Group, Bits;
    if |s| >= 3 {
      if i < 4 {
        GroupForm(s[0], s[1], s[2], 3, i);
      } else {
        EncodedForm(s[3..], i - 4);
      }
    } else if |s| == 1 {
      GroupForm(s[0], 0, 0, 1, i);
    } else if |s| == 2 {
      GroupForm(s[0], s[1], 0, 2, i);
    }
  }

  /** The place of the first '=' tells the padding. */
  lemma {:induction false} SamePadding(s: seq<byte>, t: seq<byte>)
    requires Encode(s) == Encode(t) && |Encode(s)| >= Padding(|s|) >= Padding(|t|)
    ensures Padding(|s|) == Padding(|t|)
  {
    hide *;
    if Padding(|s|) > 0 {
      EncodedForm(t, |Encode(s)| - Padding(|s|));
      EncodedForm(s, |Encode(s)| - Padding(|s|));
    }
  }

  lemma {:induction false} SameStart(s: seq<byte>, t: seq<byte>, n: nat)
    requires s + Zeros(n) == t + Zeros(n)
    ensures s == t
  {
    assert s == (s + Zeros(n))[..|s|];
    assert t == (t + Zeros(n))[..|t|];
  }

  lemma {:induction false} PaddingFits(s: seq<byte>)
    ensures Padding(|s|) <= |Encode(s)|
  {
  }

  /** Different byte strings have different texts. */
  lemma {:induction false} EncodeInjective(s: seq<byte>, t: seq<byte>)
    requires Encode(s) == Encode(t)
    ensures s == t
  {
    RawRoundTrip(s);
    RawRoundTrip(t);
    PaddingFits(s);
    PaddingFits(t);
    hide Encode, DecodeRaw, Padding;
    if Padding(|s|) >= Padding(|t|) {
      SamePadding(s, t);
    } else {
      SamePadding(t, s);
    }
    SameStart(s, t, Padding(|s|));
  }
}
