/** Trimming of message texts: xhtml_trim and plaintext_trim. */
module Trimming {

  // ------------------------------------------------------------------------ XHTML

  const TOKENS: seq<string> := [" ", "\n", "\t", "<br>", "<br/>"]

  function Fold(c: char): char {
    if 'A' <= c <= 'Z' then c - 'A' + 'a' else c
  }

  predicate Starts(s: string, t: string) {
    |t| <= |s| && forall k :: 0 <= k < |t| ==> Fold(s[k]) == Fold(t[k])
  }

  predicate Ends(s: string, t: string) {
    |t| <= |s| && forall k :: 0 <= k < |t| ==> Fold(s[|s| - |t| + k]) == Fold(t[k])
  }

  /** The length of the token s starts with, from the i-th token on; 0 for none. */
  function Lead(s: string, i: nat): (n: nat)
    requires i <= |TOKENS|
    ensures n <= |s|
    decreases |TOKENS| - i
  {
    if i == |TOKENS| then 0 else if Starts(s, TOKENS[i]) then |TOKENS[i]| else Lead(s, i + 1)
  }

  function Trail(s: string, i: nat): (n: nat)
    requires i <= |TOKENS|
    ensures n <= |s|
    decreases |TOKENS| - i
  {
    if i == |TOKENS| then 0 else if Ends(s, TOKENS[i]) then |TOKENS[i]| else Trail(s, i + 1)
  }

  function TrimLeft(s: string): string {
    if Lead(s, 0) == 0 then s else TrimLeft(s[Lead(s, 0)..])
  }

  function TrimRight(s: string): string {
    if Trail(s, 0) == 0 then s else TrimRight(s[..|s| - Trail(s, 0)])
  }

  function XhtmlTrim(s: string): string {
    TrimRight(TrimLeft(s))
  }

  /** Two tokens differ near their start, and near their end. */
  lemma {:induction false} StartsOne(s: string, i: nat, j: nat)
    requires i < j < |TOKENS| && Starts(s, TOKENS[j])
    ensures !Starts(s, TOKENS[i])
  {
    var k := if i == 3 then 3 else 0;
    assert Fold(TOKENS[i][k]) != Fold(TOKENS[j][k]);
    assert Fold(s[k]) == Fold(TOKENS[j][k]);
  }

  lemma {:induction false} EndsOne(s: string, i: nat, j: nat)
    requires i < j < |TOKENS| && Ends(s, TOKENS[j])
    ensures !Ends(s, TOKENS[i])
  {
    var k := if i == 3 then 2 else 1;
    var a, b := TOKENS[i], TOKENS[j];
    assert |a| >= k && |b| >= k && Fold(a[|a| - k]) != Fold(b[|b| - k]);
    assert Fold(s[|s| - |b| + (|b| - k)]) == Fold(b[|b| - k]);
    assert |a| <= |s| ==> s[|s| - |a| + (|a| - k)] == s[|s| - k];
  }

  lemma {:induction false} LeadIs(s: string, i: nat, j: nat)
    requires j <= i < |TOKENS| && Starts(s, TOKENS[i])
    ensures Lead(s, j) == |TOKENS[i]|
    decreases i - j
  {
    if j < i {
      StartsOne(s, j, i);
      LeadIs(s, i, j + 1);
    }
  }

  lemma {:induction false} TrailIs(s: string, i: nat, j: nat)
    requires j <= i < |TOKENS| && Ends(s, TOKENS[i])
    ensures Trail(s, j) == |TOKENS[i]|
    decreases i - j
  {
    if j < i {
      EndsOne(s, j, i);
      TrailIs(s, i, j + 1);
    }
  }

  lemma {:induction false} NoLead(s: string, j: nat)
    requires j <= |TOKENS|
    ensures Lead(s, j) == 0 <==> forall i :: j <= i < |TOKENS| ==> !Starts(s, TOKENS[i])
    decreases |TOKENS| - j
  {
    if j < |TOKENS| {
      assert |TOKENS[j]| > 0;
      NoLead(s, j + 1);
    }
  }

  lemma {:induction false} NoTrail(s: string, j: nat)
    requires j <= |TOKENS|
    ensures Trail(s, j) == 0 <==> forall i :: j <= i < |TOKENS| ==> !Ends(s, TOKENS[i])
    decreases |TOKENS| - j
  {
    if j < |TOKENS| {
      assert |TOKENS[j]| > 0;
      NoTrail(s, j + 1);
    }
  }

  lemma {:induction false} TrimLeftStep(s: string, n: nat)
    requires n == Lead(s, 0) && n > 0
    ensures TrimLeft(s[n..]) == TrimLeft(s)
  {
  }

  lemma {:induction false} TrimRightStep(s: string, n: nat)
    requires n == Trail(s, 0) && n > 0
    ensures TrimRight(s[..|s| - n]) == TrimRight(s)
  {
  }

  lemma {:induction false} TokenFits(s: string, i: nat)
    requires i < |TOKENS| && (Starts(s, TOKENS[i]) || Ends(s, TOKENS[i]))
    ensures 0 < |TOKENS[i]| <= |s|
  {
  }

  lemma {:induction false} ErasesLead(s: string, i: nat, n: nat)
    requires i < |TOKENS| && Starts(s, TOKENS[i]) && n == |TOKENS[i]|
    ensures 0 < n <= |s| && TrimLeft(s[n..]) == TrimLeft(s)
  {
    TokenFits(s, i);
    LeadIs(s, i, 0);
    hide *;
    TrimLeftStep(s, n);
  }

  lemma {:induction false} ErasesTrail(s: string, i: nat, n: nat)
    requires i < |TOKENS| && Ends(s, TOKENS[i]) && n == |TOKENS[i]|
    ensures 0 < n <= |s| && TrimRight(s[..|s| - n]) == TrimRight(s)
  {
    TokenFits(s, i);
    TrailIs(s, i, 0);
    hide *;
    TrimRightStep(s, n);
  }

  /** One sweep over the tokens at the front. */
  method SweepFront(text: string) returns (s: string, found: bool)
    ensures TrimLeft(s) == TrimLeft(text)
    ensures if found then |s| < |text| else s == text && TrimLeft(s) == s
  {
    hide Starts, Lead, TrimLeft;
    s, found := text, false;
    for i := 0 to |TOKENS|
      invariant TrimLeft(s) == TrimLeft(text)
      invariant if found then |s| < |text| else s == text && forall j :: 0 <= j < i ==> !Starts(s, TOKENS[j])
    {
      if Starts(s, TOKENS[i]) {
        ErasesLead(s, i, |TOKENS[i]|);
        s := s[|TOKENS[i]|..];
        found := true;
      }
    }
    NoLead(s, 0);
    LeftDone(s);
  }

  lemma {:induction false} LeftDone(s: string)
    ensures Lead(s, 0) == 0 ==> TrimLeft(s) == s
  {
  }

  lemma {:induction false} RightDone(s: string)
    ensures Trail(s, 0) == 0 ==> TrimRight(s) == s
  {
  }

  /** One sweep over the tokens at the back. */
  method SweepBack(text: string) returns (s: string, found: bool)
    ensures TrimRight(s) == TrimRight(text)
    ensures if found then |s| < |text| else s == text && TrimRight(s) == s
  {
    hide Ends, Trail, TrimRight;
    s, found := text, false;
    for i := 0 to |TOKENS|
      invariant TrimRight(s) == TrimRight(text)
      invariant if found then |s| < |text| else s == text && forall j :: 0 <= j < i ==> !Ends(s, TOKENS[j])
    {
      if Ends(s, TOKENS[i]) {
        ErasesTrail(s, i, |TOKENS[i]|);
        s := s[..|s| - |TOKENS[i]|];
        found := true;
      }
    }
    NoTrail(s, 0);
    RightDone(s);
  }

  /** xhtml_trim: sweeps until one erases nothing, at the front and then at the back. */
  method TrimXhtml(text: string) returns (s: string)
    ensures s == XhtmlTrim(text)
  {
    hide TrimLeft, TrimRight;
    s := text;
    var found := true;
    while found
      invariant TrimLeft(s) == TrimLeft(text) && (!found ==> s == TrimLeft(text))
      decreases |s|, found
    {
      s, found := SweepFront(s);
    }
    found := true;
    while found
      invariant TrimRight(s) == XhtmlTrim(text) && (!found ==> s == XhtmlTrim(text))
      decreases |s|, found
    {
      s, found := SweepBack(s);
    }
  }

  predicate Trimmable(c: char) {
    Fold(c) in " \n\t<br/>"
  }

  predicate AllTrimmable(s: string) {
    forall k :: 0 <= k < |s| ==> Trimmable(s[k])
  }

  lemma {:induction false} TrimmableBoth(s: string, t: string)
    requires AllTrimmable(s) && AllTrimmable(t)
    ensures AllTrimmable(s + t)
  {
    hide Trimmable;
  }

  lemma {:induction false} LeadChars(s: string, j: nat)
    requires j <= |TOKENS|
    ensures AllTrimmable(s[..Lead(s, j)])
    decreases |TOKENS| - j
  {
    if j < |TOKENS| {
      LeadChars(s, j + 1);
      assert forall k :: 0 <= k < |TOKENS[j]| ==> Fold(TOKENS[j][k]) in " \n\t<br/>";
    }
  }

  lemma {:induction false} TrailChars(s: string, j: nat)
    requires j <= |TOKENS|
    ensures AllTrimmable(s[|s| - Trail(s, j)..])
    decreases |TOKENS| - j
  {
    if j < |TOKENS| {
      TrailChars(s, j + 1);
      var t := TOKENS[j];
      assert forall k :: 0 <= k < |t| ==> Fold(t[k]) in " \n\t<br/>";
      if Ends(s, t) {
        forall k | |s| - |t| <= k < |s| ensures Trimmable(s[k]) {
          assert Fold(s[|s| - |t| + (k - (|s| - |t|))]) == Fold(t[k - (|s| - |t|)]);
        }
      }
    }
  }

  predicate Suffix(t: string, s: string) {
    |t| <= |s| && t == s[|s| - |t|..]
  }

  predicate Prefix(t: string, s: string) {
    |t| <= |s| && t == s[..|t|]
  }

  lemma {:induction false} SuffixCut(t: string, s: string, a: nat)
    requires a <= |s| && Suffix(t, s[a..])
    ensures Suffix(t, s)
  {
    assert s[a..][|s| - a - |t|..] == s[|s| - |t|..];
  }

  lemma {:induction false} PrefixCut(t: string, s: string, b: nat)
    requires b <= |s| && Prefix(t, s[..b])
    ensures Prefix(t, s)
  {
    assert s[..b][..|t|] == s[..|t|];
  }

  lemma {:induction false} SelfEnds(s: string)
    ensures Suffix(s, s) && Prefix(s, s)
  {
  }

  lemma {:induction false} TrimLeftSuffix(s: string)
    ensures Suffix(TrimLeft(s), s) && Lead(TrimLeft(s), 0) == 0
    decreases |s|
  {
    hide Lead, Suffix;
    var lead := Lead(s, 0);
    if lead > 0 {
      TrimLeftSuffix(s[lead..]);
      SuffixCut(TrimLeft(s), s, lead);
    } else {
      SelfEnds(s);
    }
  }

  lemma {:induction false} TrimLeftChars(s: string)
    ensures |TrimLeft(s)| <= |s| && AllTrimmable(s[..|s| - |TrimLeft(s)|])
    decreases |s|
  {
    hide Lead, AllTrimmable;
    var lead := Lead(s, 0);
    LeadChars(s, 0);
    if lead > 0 {
      TrimLeftChars(s[lead..]);
      var n := |s| - |TrimLeft(s)|;
      TrimmableBoth(s[..lead], s[lead..][..n - lead]);
      assert s[..lead] + s[lead..][..n - lead] == s[..n];
    }
  }

  lemma {:induction false} TrimRightPrefix(s: string)
    ensures Prefix(TrimRight(s), s) && Trail(TrimRight(s), 0) == 0
    decreases |s|
  {
    hide Trail, Prefix;
    var trail := Trail(s, 0);
    if trail > 0 {
      TrimRightPrefix(s[..|s| - trail]);
      PrefixCut(TrimRight(s), s, |s| - trail);
    } else {
      SelfEnds(s);
    }
  }

  lemma {:induction false} TrimRightChars(s: string)
    ensures |TrimRight(s)| <= |s| && AllTrimmable(s[|TrimRight(s)|..])
    decreases |s|
  {
    hide Trail, AllTrimmable;
    var trail := Trail(s, 0);
    TrailChars(s, 0);
    if trail > 0 {
      TrimRightChars(s[..|s| - trail]);
      var n := |TrimRight(s)|;
      TrimmableBoth(s[..|s| - trail][n..], s[|s| - trail..]);
      assert s[..|s| - trail][n..] + s[|s| - trail..] == s[n..];
    }
  }

  /** Cutting at the back makes no new token at the front. */
  lemma {:induction false} LeadOfPrefix(s: string, n: nat)
    requires n <= |s| && Lead(s, 0) == 0
    ensures Lead(s[..n], 0) == 0
  {
    NoLead(s, 0);
    NoLead(s[..n], 0);
    hide Lead;
    assert forall i :: 0 <= i < |TOKENS| && Starts(s[..n], TOKENS[i]) ==> Starts(s, TOKENS[i]);
  }

  /** What is cut away is made of token characters only. */
  ghost predicate CutsTo(s: string, t: string) {
    exists a: string, b: string :: s == a + t + b && AllTrimmable(a) && AllTrimmable(b)
  }

  lemma {:induction false} TrimCuts(s: string)
    ensures CutsTo(s, XhtmlTrim(s)) && Lead(XhtmlTrim(s), 0) == 0 && Trail(XhtmlTrim(s), 0) == 0
  {
    hide Lead, Trail, TrimLeft, TrimRight, AllTrimmable;
    var t := TrimLeft(s);
    TrimLeftSuffix(s);
    TrimLeftChars(s);
    TrimRightPrefix(t);
    TrimRightChars(t);
    LeadOfPrefix(t, |TrimRight(t)|);
    var a, b := s[..|s| - |t|], t[|TrimRight(t)|..];
    assert s == a + XhtmlTrim(s) + b;
  }

  /** The trimmed text is a substring without a token at either end, only token characters
      are lost, and trimming again changes nothing. */
  lemma {:induction false} XhtmlTrimMeans(s: string)
    ensures CutsTo(s, XhtmlTrim(s))
    ensures forall i :: 0 <= i < |TOKENS| ==> !Starts(XhtmlTrim(s), TOKENS[i]) && !Ends(XhtmlTrim(s), TOKENS[i])
    ensures XhtmlTrim(XhtmlTrim(s)) == XhtmlTrim(s)
  {
    hide Lead, Trail, Starts, Ends, CutsTo;
    TrimCuts(s);
    NoLead(XhtmlTrim(s), 0);
    NoTrail(XhtmlTrim(s), 0);
    LeftDone(XhtmlTrim(s));
    RightDone(XhtmlTrim(s));
    hide TrimLeft, TrimRight;
  }

  /** t is the i-th token but for the case of its letters. */
  predicate IsToken(t: string, i: nat) {
    i < |TOKENS| && |TOKENS[i]| == |t| && forall k :: 0 <= k < |t| ==> Fold(t[k]) == Fold(TOKENS[i][k])
  }

  /** The tokens are a blank, a newline, a tab and a line break in either form, in any case. */
  lemma {:induction false} TokensAre()
    ensures IsToken(" ", 0) && IsToken("\n", 1) && IsToken("\t", 2)
    ensures IsToken("<br>", 3) && IsToken("<BR>", 3) && IsToken("<bR>", 3) && IsToken("<Br>", 3)
    ensures IsToken("<br/>", 4) && IsToken("<BR/>", 4) && IsToken("<bR/>", 4) && IsToken("<Br/>", 4)
  {
  }

  /** A token at an end is trimmed, and none is left at an end. */
  lemma {:induction false} TokensGo(s: string, t: string, i: nat)
    requires IsToken(t, i)
    ensures TrimLeft(t + s) == TrimLeft(s) && TrimRight(s + t) == TrimRight(s)
    ensures |t| <= |XhtmlTrim(s)| ==> XhtmlTrim(s)[..|t|] != t && XhtmlTrim(s)[|XhtmlTrim(s)| - |t|..] != t
  {
    TokenAtEnds(s, t, i);
    XhtmlTrimMeans(s);
    hide TrimLeft, TrimRight, XhtmlTrim, IsToken, Starts, Ends;
    StartsEnds(XhtmlTrim(s), t, i);
  }

  lemma {:induction false} TokenAtEnds(s: string, t: string, i: nat)
    requires IsToken(t, i)
    ensures TrimLeft(t + s) == TrimLeft(s) && TrimRight(s + t) == TrimRight(s)
  {
    assert Starts(t + s, TOKENS[i]) && Ends(s + t, TOKENS[i]);
    ErasesLead(t + s, i, |t|);
    ErasesTrail(s + t, i, |t|);
    assert (t + s)[|t|..] == s && (s + t)[..|s + t| - |t|] == s;
    hide *;
  }

  lemma {:induction false} StartsEnds(r: string, t: string, i: nat)
    requires IsToken(t, i)
    ensures i < |TOKENS|
    ensures |t| <= |r| && r[..|t|] == t ==> Starts(r, TOKENS[i])
    ensures |t| <= |r| && r[|r| - |t|..] == t ==> Ends(r, TOKENS[i])
  {
    if |t| <= |r| && r[..|t|] == t {
      assert forall k :: 0 <= k < |t| ==> t[k] == r[k];
    }
    if |t| <= |r| && r[|r| - |t|..] == t {
      forall k | 0 <= k < |t| ensures Fold(r[|r| - |t| + k]) == Fold(TOKENS[i][k]) {
        assert t[k] == r[|r| - |t| + k];
      }
    }
  }

  // ------------------------------------------------------------------- plain text

  predicate Blank(c: char) {
    c in " \n\t"
  }

  /** One past the last character that is not blank; 0 when there is none. */
  function AfterLastNotBlank(s: string): (n: nat)
    ensures n <= |s|
  {
    if s == "" then 0 else if !Blank(s[|s| - 1]) then |s| else AfterLastNotBlank(s[..|s| - 1])
  }

  function FirstNotBlank(s: string): (n: nat)
    ensures n <= |s|
  {
    if s == "" || !Blank(s[0]) then 0 else 1 + FirstNotBlank(s[1..])
  }

  function PlaintextTrim(s: string): string {
    var text := s[..AfterLastNotBlank(s)];
    text[FirstNotBlank(text)..]
  }

  lemma {:induction false} AfterLastMeans(s: string)
    ensures var n := AfterLastNotBlank(s);
      (n > 0 ==> !Blank(s[n - 1])) && forall k :: n <= k < |s| ==> Blank(s[k])
  {
    if s != "" && Blank(s[|s| - 1]) {
      AfterLastMeans(s[..|s| - 1]);
    }
  }

  lemma {:induction false} FirstMeans(s: string)
    ensures var n := FirstNotBlank(s);
      (n < |s| ==> !Blank(s[n])) && forall k :: 0 <= k < n ==> Blank(s[k])
  {
    if s != "" && Blank(s[0]) {
      FirstMeans(s[1..]);
    }
  }

  /** s[a..b] is the middle of s between blanks. */
  predicate Middle(s: string, a: nat, b: nat) {
    a <= b <= |s| && (forall k :: 0 <= k < a ==> Blank(s[k])) && (forall k :: b <= k < |s| ==> Blank(s[k])) &&
    (a < b ==> !Blank(s[a]) && !Blank(s[b - 1]))
  }

  lemma {:induction false} TrimMiddle(s: string, b: nat, a: nat)
    requires b == AfterLastNotBlank(s) && a == FirstNotBlank(s[..b])
    ensures Middle(s, a, b) && PlaintextTrim(s) == s[a..b]
  {
    AfterLastMeans(s);
    FirstMeans(s[..b]);
    assert PlaintextTrim(s) == s[a..b];
    hide Blank, AfterLastNotBlank, FirstNotBlank, PlaintextTrim;
    assert forall k :: 0 <= k < b ==> s[..b][k] == s[k];
  }

  /** Blanks at both ends are lost, and only they: the text is their middle. */
  lemma {:induction false} PlaintextTrimMeans(s: string)
    ensures exists a: nat, b: nat :: Middle(s, a, b) && PlaintextTrim(s) == s[a..b]
  {
    var b := AfterLastNotBlank(s);
    var a := FirstNotBlank(s[..b]);
    hide *;
    TrimMiddle(s, b, a);
  }
}
