/** How the storage backends write passwords and group lists into one string. */
module StorageBackend {
  import opened Wrappers
  import opened Base64

  // -------------------------------------------------------------------- passwords

  /** char arithmetic wraps at eight bits. */
  function Plus(c: byte, k: byte): byte { (c + k) % 256 }
  function Minus(c: byte, k: byte): byte { (c - k) % 256 }

  /** The password with the repeated key added byte by byte. */
  function Shift(p: seq<byte>, key: seq<byte>): (r: seq<byte>)
    requires key != []
  {
    seq(|p|, i requires 0 <= i < |p| => Plus(p[i], key[i % |key|]))
  }

  function Unshift(p: seq<byte>, key: seq<byte>): (r: seq<byte>)
    requires key != []
  {
    seq(|p|, i requires 0 <= i < |p| => Minus(p[i], key[i % |key|]))
  }

  function Encrypted(p: seq<byte>, key: seq<byte>): string
    requires key != []
  {
    Encode(Shift(p, key))
  }

  /** None stands for the exception on a character outside the alphabet. */
  function Decrypted(e: string, key: seq<byte>): Option<seq<byte>>
    requires key != []
  {
    match Decode(e)
    case None => None
    case Some(raw) => Some(Unshift(raw, key))
  }

  method EncryptPassword(password: seq<byte>, key: seq<byte>) returns (encrypted: string)
    requires key != []
    ensures encrypted == Encrypted(password, key)
  {
    var shifted: seq<byte> := seq(|password|, _ => 0);
    for i := 0 to |password|
      invariant |shifted| == |password|
      invariant forall j :: 0 <= j < i ==> shifted[j] == Shift(password, key)[j]
    {
      var c := password[i];
      var keychar := key[i % |key|];
      c := Plus(c, keychar);
      shifted := shifted[i := c];
    }
    assert shifted == Shift(password, key);
    encrypted := Encode(shifted);
  }

  method DecryptPassword(encrypted: string, key: seq<byte>) returns (password: Option<seq<byte>>)
    requires key != []
    ensures password == Decrypted(encrypted, key)
  {
    var decoded := Decode(encrypted);
    if decoded.None? {
      return None;
    }
    var bytes := decoded.value;
    var plain: seq<byte> := seq(|bytes|, _ => 0);
    for i := 0 to |bytes|
      invariant |plain| == |bytes|
      invariant forall j :: 0 <= j < i ==> plain[j] == Unshift(bytes, key)[j]
    {
      var c := bytes[i];
      var keychar := key[i % |key|];
      c := Minus(c, keychar);
      plain := plain[i := c];
    }
    assert plain == Unshift(bytes, key);
    password := Some(plain);
  }

  lemma {:induction false} ShiftBack(c: byte, k: byte)
    ensures Minus(Plus(c, k), k) == c
  {
  }

  lemma {:induction false} UnshiftShift(p: seq<byte>, key: seq<byte>, n: nat)
    requires key != [] && n <= |p|
    ensures Unshift(Shift(p, key)[..n], key) == p[..n]
  {
    forall i | 0 <= i < n ensures Unshift(Shift(p, key)[..n], key)[i] == p[i] {
      ShiftBack(p[i], key[i % |key|]);
    }
  }

  /** What a password becomes when it is stored and read back: itself, except that the bytes
      whose shifted forms are trailing NULs are lost. */
  lemma {:induction false} PasswordReadBack(p: seq<byte>, key: seq<byte>)
    requires key != []
    ensures var kept := |TrimNuls(Shift(p, key))|;
      kept <= |p| && Decrypted(Encrypted(p, key), key) == Some(p[..kept])
  {
    hide Shift, Unshift, Encode, Decode, TrimNuls;
    ShiftLength(p, key);
    RoundTrip(Shift(p, key));
    TrimNulsMeans(Shift(p, key));
    UnshiftShift(p, key, |TrimNuls(Shift(p, key))|);
  }

  lemma {:induction false} ShiftLength(p: seq<byte>, key: seq<byte>)
    requires key != []
    ensures |Shift(p, key)| == |p|
    ensures p != [] ==> Shift(p, key)[|p| - 1] == Plus(p[|p| - 1], key[(|p| - 1) % |key|])
  {
  }

  /** The two bytes add up to 0 in eight bits. */
  predicate WrapsToNul(c: byte, k: byte) {
    c + k == 0 || c + k == 256
  }

  lemma {:induction false} PlusNul(c: byte, k: byte)
    ensures Plus(c, k) == 0 <==> WrapsToNul(c, k)
  {
  }

  /** It comes back whole exactly when the key does not wrap its last byte to NUL. */
  lemma {:induction false} PasswordSurvivesIff(p: seq<byte>, key: seq<byte>)
    requires key != []
    ensures Decrypted(Encrypted(p, key), key) == Some(p) <==>
      p == [] || !WrapsToNul(p[|p| - 1], key[(|p| - 1) % |key|])
  {
    hide Shift, Encrypted, Decrypted, TrimNuls, Plus, WrapsToNul;
    if p != [] {
      PlusNul(p[|p| - 1], key[(|p| - 1) % |key|]);
    }
    PasswordReadBack(p, key);
    ShiftLength(p, key);
    TrimNulsMeans(Shift(p, key));
    assert p[..|p|] == p;
  }

  /** Under every key some password is lost: a lone byte that the key wraps to NUL. */
  lemma {:induction false} PasswordLost(key: seq<byte>)
    requires key != []
    ensures Decrypted(Encrypted([Minus(0, key[0])], key), key) == Some([])
  {
    var p := [Minus(0, key[0])];
    hide Encrypted, Decrypted, Minus;
    LostShift(key);
    PasswordReadBack(p, key);
    assert p[..0] == [];
  }

  lemma {:induction false} LostShift(key: seq<byte>)
    requires key != []
    ensures TrimNuls(Shift([Minus(0, key[0])], key)) == []
  {
    var p := [Minus(0, key[0])];
    assert Plus(p[0], key[0]) == 0;
    assert Shift(p, key) == [0];
    assert [0][..0] == [];
  }

  // ----------------------------------------------------------------------- groups

  /** Every group followed by a newline. */
  function Lines(gs: seq<string>): string {
    if gs == [] then "" else gs[0] + "\n" + Lines(gs[1..])
  }

  lemma {:induction false} LinesNext(gs: seq<string>, g: string)
    ensures Lines(gs + [g]) == Lines(gs) + g + "\n"
  {
    if gs == [] {
      assert Lines([g][1..]) == "";
    } else {
      LinesNext(gs[1..], g);
      assert (gs + [g])[1..] == gs[1..] + [g];
      assert gs[0] + "\n" + (Lines(gs[1..]) + g + "\n") == gs[0] + "\n" + Lines(gs[1..]) + g + "\n";
    }
  }

  /** The groups with one newline between them. */
  function Joined(gs: seq<string>): string {
    if gs == [] then "" else if |gs| == 1 then gs[0] else gs[0] + "\n" + Joined(gs[1..])
  }

  lemma {:induction false} LinesJoined(gs: seq<string>)
    requires gs != []
    ensures Lines(gs) == Joined(gs) + "\n"
  {
    if |gs| > 1 {
      LinesJoined(gs[1..]);
    } else {
      assert gs[1..] == [];
    }
  }

  method SerializeGroups(groups: seq<string>) returns (ret: string)
    ensures ret == Joined(groups)
  {
    ret := "";
    for i := 0 to |groups|
      invariant ret == Lines(groups[..i])
    {
      LinesNext(groups[..i], groups[i]);
      assert groups[..i + 1] == groups[..i] + [groups[i]];
      ret := ret + groups[i] + "\n";
    }
    assert groups[..|groups|] == groups;
    if ret != "" {
      LinesJoined(groups);
      ret := ret[..|ret| - 1];
    } else if groups != [] {
      LinesJoined(groups);
      assert false;
    }
  }

  /** boost::split at every newline. */
  function Split(s: string): (r: seq<string>)
    ensures r != []
  {
    if s == "" then [""]
    else
      var rest := Split(s[1..]);
      if s[0] == '\n' then [""] + rest else [[s[0]] + rest[0]] + rest[1..]
  }

  function DeserializeGroups(s: string): seq<string> {
    if s == "" then []
    else
      var ret := Split(s);
      if ret[|ret| - 1] == "" then ret[..|ret| - 1] else ret
  }

  predicate OneLine(g: string) {
    '\n' !in g
  }

  lemma {:induction false} SplitNewline(g: string, s: string)
    ensures Split(g + "\n" + s) == Split(g) + Split(s)
  {
    if g == "" {
      assert g + "\n" + s == "\n" + s && ("\n" + s)[1..] == s;
    } else {
      SplitNewline(g[1..], s);
      assert (g + "\n" + s)[1..] == g[1..] + "\n" + s;
      SplitPrepends(g[0], Split(g[1..]), Split(s));
    }
  }

  lemma {:induction false} SplitPrepends(c: char, rest: seq<string>, more: seq<string>)
    requires rest != []
    ensures [[c] + (rest + more)[0]] + (rest + more)[1..] == ([[c] + rest[0]] + rest[1..]) + more
    ensures [""] + (rest + more) == ([""] + rest) + more
  {
    assert (rest + more)[1..] == rest[1..] + more;
  }

  lemma {:induction false} SplitLine(g: string)
    requires OneLine(g)
    ensures Split(g) == [g]
  {
    if g != "" {
      SplitLine(g[1..]);
      assert g == [g[0]] + g[1..];
    }
  }

  /** The pieces of a split are lines. */
  lemma {:induction false} SplitOneLine(s: string, i: nat)
    requires i < |Split(s)|
    ensures OneLine(Split(s)[i])
  {
    if s != "" {
      var rest := Split(s[1..]);
      SplitOneLine(s[1..], if i == 0 || s[0] != '\n' then i else i - 1);
    }
  }

  /** Every group cut at its newlines. */
  function AllLines(gs: seq<string>): seq<string> {
    if gs == [] then [] else Split(gs[0]) + AllLines(gs[1..])
  }

  lemma {:induction false} SplitJoined(gs: seq<string>)
    requires gs != []
    ensures Split(Joined(gs)) == AllLines(gs)
  {
    if |gs| == 1 {
      assert gs[1..] == [] && Split(gs[0]) + [] == Split(gs[0]);
    } else {
      SplitJoined(gs[1..]);
      SplitNewline(gs[0], Joined(gs[1..]));
    }
  }

  lemma {:induction false} AllLinesSame(gs: seq<string>)
    requires forall i :: 0 <= i < |gs| ==> OneLine(gs[i])
    ensures AllLines(gs) == gs
  {
    if gs != [] {
      SplitLine(gs[0]);
      AllLinesSame(gs[1..]);
    }
  }

  function WithoutLastEmpty(gs: seq<string>): seq<string> {
    if gs != [] && gs[|gs| - 1] == "" then gs[..|gs| - 1] else gs
  }

  /** Groups come back cut at their newlines, without an empty one at the very end. */
  lemma {:induction false} GroupsReadBack(gs: seq<string>)
    ensures DeserializeGroups(Joined(gs)) == WithoutLastEmpty(AllLines(gs))
  {
    if gs != [] {
      SplitJoined(gs);
      if Joined(gs) == "" {
        assert Split("") == [""];
      }
    }
  }

  /** So they survive exactly when none has a newline and the last is not empty. */
  lemma {:induction false} GroupsSurviveIff(gs: seq<string>)
    ensures DeserializeGroups(Joined(gs)) == gs <==>
      (forall i :: 0 <= i < |gs| ==> OneLine(gs[i])) && (gs == [] || gs[|gs| - 1] != "")
  {
    GroupsReadBack(gs);
    if forall i :: 0 <= i < |gs| ==> OneLine(gs[i]) {
      AllLinesSame(gs);
    } else {
      var i :| 0 <= i < |gs| && !OneLine(gs[i]);
      hide OneLine;
      if DeserializeGroups(Joined(gs)) == gs {
        SplitOneLine(Joined(gs), i);
      }
    }
  }

  lemma {:induction false} JoinedNewline(gs: seq<string>)
    requires gs != []
    ensures Joined([""] + gs) == "\n" + Joined(gs)
  {
    assert ([""] + gs)[1..] == gs;
  }

  lemma {:induction false} JoinedPrepend(c: char, gs: seq<string>)
    requires gs != []
    ensures Joined([[c] + gs[0]] + gs[1..]) == [c] + Joined(gs)
  {
    var more := [[c] + gs[0]] + gs[1..];
    assert more[1..] == gs[1..];
    if |gs| > 1 {
      assert ([c] + gs[0]) + "\n" + Joined(gs[1..]) == [c] + (gs[0] + "\n" + Joined(gs[1..]));
    }
  }

  lemma {:induction false} JoinedSplit(s: string)
    ensures Joined(Split(s)) == s
  {
    hide Joined;
    if s == "" {
      JoinedOne("");
    } else {
      JoinedSplit(s[1..]);
      JoinedNewline(Split(s[1..]));
      JoinedPrepend(s[0], Split(s[1..]));
      assert s == [s[0]] + s[1..];
    }
  }

  lemma {:induction false} JoinedOne(g: string)
    ensures Joined([g]) == g
  {
  }

  lemma {:induction false} SplitLast(s: string)
    ensures Split(s)[|Split(s)| - 1] == "" <==> s == "" || s[|s| - 1] == '\n'
  {
    if s != "" {
      SplitLast(s[1..]);
    }
  }

  lemma {:induction false} JoinedEmptyLast(gs: seq<string>)
    requires gs != []
    ensures Joined(gs + [""]) == Joined(gs) + "\n"
  {
    if |gs| == 1 {
      assert (gs + [""])[1..] == [""];
    } else {
      JoinedEmptyLast(gs[1..]);
      assert (gs + [""])[1..] == gs[1..] + [""];
    }
  }

  function WithoutLastNewline(s: string): string {
    if s != "" && s[|s| - 1] == '\n' then s[..|s| - 1] else s
  }

  /** Any string that is read as groups is written back without one newline at its end. */
  lemma {:induction false} GroupsWrittenBack(s: string)
    ensures Joined(DeserializeGroups(s)) == WithoutLastNewline(s)
  {
    if s != "" {
      JoinedSplit(s);
      SplitLast(s);
      var ret := Split(s);
      var n := |ret| - 1;
      if ret[n] == "" {
        assert ret == ret[..n] + [""];
        if n > 0 {
          JoinedEmptyLast(ret[..n]);
        }
      }
    }
  }
}
