/** Loading a roster: SQLite3Backend walks buddies and settings once, side by side, with
    one setting pending; PQXXBackend searches the roster for every setting.  Each is proved
    against a specification of its own, and then it is proved exactly when the two agree. */
module RosterMerge {

  const TYPE_BOOLEAN := 4
  const TYPE_STRING := 13

  datatype BuddyRow = BuddyRow(id: int, uin: string, subscription: string, nickname: string, groups: string, flags: int)

  datatype SettingRow = SettingRow(buddyId: int, stype: int, key: string, val: string)

  /** SettingVariableInfo: which of s and b means anything depends on stype. */
  datatype Variable = Variable(stype: int, s: string, b: bool)

  datatype BuddyInfo = BuddyInfo(row: BuddyRow, settings: map<string, Variable>)

  /** The part of a variable its type selects. */
  datatype Shown = Flag(b: bool) | Text(s: string) | Other(stype: int)

  function Show(v: Variable): Shown {
    if v.stype == TYPE_BOOLEAN then Flag(v.b) else if v.stype == TYPE_STRING then Text(v.s) else Other(v.stype)
  }

  function ShowAll(m: map<string, Variable>): map<string, Shown> {
    map k | k in m :: Show(m[k])
  }

  predicate Known(r: SettingRow) {
    r.stype == TYPE_BOOLEAN || r.stype == TYPE_STRING
  }

  function Meaning(atoi: string -> int, r: SettingRow): Shown {
    if r.stype == TYPE_BOOLEAN then Flag(atoi(r.val) != 0) else if r.stype == TYPE_STRING then Text(r.val) else Other(r.stype)
  }

  /** The settings of one buddy: its rows of a known type, later ones winning. */
  function Attached(atoi: string -> int, rows: seq<SettingRow>, id: int): map<string, Shown> {
    if rows == [] then map[] else
    var before, r := Attached(atoi, rows[..|rows| - 1], id), rows[|rows| - 1];
    if r.buddyId == id && Known(r) then before[r.key := Meaning(atoi, r)] else before
  }

  /** The type and the value of the variable a row is read into; other fields are kept. */
  function Filled(atoi: string -> int, v: Variable, r: SettingRow): Variable {
    if r.stype == TYPE_BOOLEAN then v.(stype := r.stype, b := atoi(r.val) != 0)
    else if r.stype == TYPE_STRING then v.(stype := r.stype, s := r.val)
    else v.(stype := r.stype)
  }

  lemma {:induction false} AttachedNext(atoi: string -> int, rows: seq<SettingRow>, k: nat, id: int)
    requires k < |rows|
    ensures Attached(atoi, rows[..k + 1], id) ==
      if rows[k].buddyId == id && Known(rows[k]) then Attached(atoi, rows[..k], id)[rows[k].key := Meaning(atoi, rows[k])]
      else Attached(atoi, rows[..k], id)
  {
    assert rows[..k + 1][..k] == rows[..k];
  }

  /** Rows of other buddies change nothing. */
  lemma {:induction false} AttachedSkip(atoi: string -> int, rows: seq<SettingRow>, i: nat, j: nat, id: int)
    requires i <= j <= |rows| && forall k :: i <= k < j ==> rows[k].buddyId != id
    ensures Attached(atoi, rows[..j], id) == Attached(atoi, rows[..i], id)
    decreases j
  {
    if i < j {
      AttachedNext(atoi, rows, j - 1, id);
      AttachedSkip(atoi, rows, i, j - 1, id);
    }
  }

  // ---------------------------------------------------------------- nested loops

  /** PQXXBackend::getBuddies: every setting goes to the first buddy with its id. */
  method GetBuddiesNested(atoi: string -> int, buddies: seq<BuddyRow>, rows: seq<SettingRow>, unset: Variable)
    returns (roster: seq<BuddyInfo>)
    ensures |roster| == |buddies| && forall m :: 0 <= m < |roster| ==> roster[m].row == buddies[m]
    ensures forall m :: 0 <= m < |buddies| && (forall l :: 0 <= l < m ==> buddies[l].id != buddies[m].id) ==>
      ShowAll(roster[m].settings) == Attached(atoi, rows, buddies[m].id)
  {
    roster := seq(|buddies|, i requires 0 <= i < |buddies| => BuddyInfo(buddies[i], map[]));
    assert rows[..0] == [];
    for k := 0 to |rows|
      invariant |roster| == |buddies| && forall m :: 0 <= m < |roster| ==> roster[m].row == buddies[m]
      invariant forall m :: 0 <= m < |buddies| && FirstWith(buddies, m) ==>
        ShowAll(roster[m].settings) == Attached(atoi, rows[..k], buddies[m].id)
    {
      forall id { AttachedNext(atoi, rows, k, id); }
      if Known(rows[k]) {
        var v := Filled(atoi, unset, rows[k]);
        roster := AttachToFirst(roster, rows[k].buddyId, rows[k].key, v);
      }
    }
    assert rows[..|rows|] == rows;
  }

  predicate FirstWith(buddies: seq<BuddyRow>, m: nat)
    requires m < |buddies|
  {
    forall l :: 0 <= l < m ==> buddies[l].id != buddies[m].id
  }

  method AttachToFirst(roster: seq<BuddyInfo>, id: int, key: string, v: Variable) returns (r: seq<BuddyInfo>)
    ensures |r| == |roster|
    ensures forall m :: 0 <= m < |r| ==>
      r[m] == if roster[m].row.id == id && (forall l :: 0 <= l < m ==> roster[l].row.id != id)
              then roster[m].(settings := roster[m].settings[key := v]) else roster[m]
  {
    r := roster;
    for i := 0 to |roster|
      invariant r == roster && forall l :: 0 <= l < i ==> roster[l].row.id != id
    {
      if roster[i].row.id == id {
        r := roster[i := roster[i].(settings := roster[i].settings[key := v])];
        return;
      }
    }
  }

  // ---------------------------------------------------------------- one pass

  predicate Sorted(rows: seq<SettingRow>) {
    forall i, j :: 0 <= i < j < |rows| ==> rows[i].buddyId <= rows[j].buddyId
  }

  /** The id column as the query returns it: ascending, and never the sentinel -1. */
  predicate Ascending(buddies: seq<BuddyRow>) {
    (forall i, j :: 0 <= i < j < |buddies| ==> buddies[i].id < buddies[j].id) &&
    (forall i :: 0 <= i < |buddies| ==> buddies[i].id != -1)
  }

  predicate Owned(buddies: seq<BuddyRow>, r: SettingRow) {
    exists m :: 0 <= m < |buddies| && buddies[m].id == r.buddyId
  }

  /** Rows before the first one that stops the settings cursor for good: a row whose
      buddy is not in the list (rows with buddy id -1 are read over). */
  function Reach(buddies: seq<BuddyRow>, rows: seq<SettingRow>): (n: nat)
    ensures n <= |rows|
    ensures n < |rows| ==> rows[n].buddyId != -1 && !Owned(buddies, rows[n])
    ensures forall k :: 0 <= k < n ==> rows[k].buddyId == -1 || Owned(buddies, rows[k])
  {
    if rows == [] then 0
    else if rows[0].buddyId != -1 && !Owned(buddies, rows[0]) then 0
    else 1 + Reach(buddies, rows[1..])
  }

  /** Rows from cut up to the reach belong to none of the first m buddies. */
  ghost predicate Past(buddies: seq<BuddyRow>, rows: seq<SettingRow>, cut: nat, m: nat)
    requires m <= |buddies|
  {
    forall k, l :: cut <= k < Reach(buddies, rows) && 0 <= l < m ==> rows[k].buddyId != buddies[l].id
  }

  /** Rows before cut belong to the first m buddies, or to none. */
  ghost predicate Used(buddies: seq<BuddyRow>, rows: seq<SettingRow>, cut: nat, m: nat)
    requires m <= |buddies| && cut <= |rows|
  {
    forall k, l :: 0 <= k < cut && m <= l < |buddies| ==> rows[k].buddyId != buddies[l].id
  }

  /** Once the cursor rests on a row of another buddy, the current buddy has all its rows. */
  lemma {:induction false} MovesPast(buddies: seq<BuddyRow>, rows: seq<SettingRow>, cut: nat, m: nat)
    requires Ascending(buddies) && Sorted(rows) && m < |buddies| && cut <= Reach(buddies, rows)
    requires Past(buddies, rows, cut, m)
    requires cut < |rows| ==> rows[cut].buddyId != -1 && rows[cut].buddyId != buddies[m].id
    ensures Past(buddies, rows, cut, m + 1)
  {
    if cut < Reach(buddies, rows) {
      assert Owned(buddies, rows[cut]);
      var q :| 0 <= q < |buddies| && buddies[q].id == rows[cut].buddyId;
      assert q > m;
      forall k | cut <= k < Reach(buddies, rows) ensures rows[k].buddyId > buddies[m].id {
      }
    }
  }

  /** Attaching a row to the current buddy, or reading over it. */
  lemma {:induction false} StepsOver(buddies: seq<BuddyRow>, rows: seq<SettingRow>, cut: nat, m: nat)
    requires Ascending(buddies) && m < |buddies| && cut < |rows| && cut <= Reach(buddies, rows)
    requires Past(buddies, rows, cut, m) && Used(buddies, rows, cut, m + 1)
    requires rows[cut].buddyId == -1 || rows[cut].buddyId == buddies[m].id
    ensures cut + 1 <= Reach(buddies, rows)
    ensures Past(buddies, rows, cut + 1, m) && Used(buddies, rows, cut + 1, m + 1)
  {
  }

  predicate Pending(atoi: string -> int, rows: seq<SettingRow>, next: nat, buddyId: int, key: string, v: Variable) {
    0 < next <= |rows| && rows[next - 1].buddyId == buddyId && Holds(atoi, rows[next - 1], buddyId, key, v)
  }

  /** The row was read while an earlier buddy had its turn, so it waited as the pending one:
      the first row of any buddy but the first. */
  predicate Ahead(before: seq<SettingRow>, id: int, first: bool) {
    !first && forall k :: 0 <= k < |before| ==> before[k].buddyId != id
  }

  /** What the one pass attaches to a buddy: its rows of a known type, and a row that waited
      whatever its type. */
  function OnePass(atoi: string -> int, rows: seq<SettingRow>, id: int, first: bool): map<string, Shown> {
    if rows == [] then map[] else
    var before, r := rows[..|rows| - 1], rows[|rows| - 1];
    if r.buddyId == id && (Known(r) || Ahead(before, id, first))
    then OnePass(atoi, before, id, first)[r.key := Meaning(atoi, r)]
    else OnePass(atoi, before, id, first)
  }

  lemma {:induction false} OnePassNext(atoi: string -> int, rows: seq<SettingRow>, k: nat, id: int, first: bool)
    requires k < |rows|
    ensures OnePass(atoi, rows[..k + 1], id, first) ==
      if rows[k].buddyId == id && (Known(rows[k]) || Ahead(rows[..k], id, first))
      then OnePass(atoi, rows[..k], id, first)[rows[k].key := Meaning(atoi, rows[k])]
      else OnePass(atoi, rows[..k], id, first)
  {
    assert rows[..k + 1][..k] == rows[..k];
  }

  lemma {:induction false} OnePassSkip(atoi: string -> int, rows: seq<SettingRow>, i: nat, j: nat, id: int, first: bool)
    requires i <= j <= |rows| && forall k :: i <= k < j ==> rows[k].buddyId != id
    ensures OnePass(atoi, rows[..j], id, first) == OnePass(atoi, rows[..i], id, first)
    decreases j
  {
    if i < j {
      OnePassNext(atoi, rows, j - 1, id, first);
      OnePassSkip(atoi, rows, i, j - 1, id, first);
    }
  }

  /** What one buddy's turn starts from. */
  lemma {:induction false} TurnStarts(atoi: string -> int, buddies: seq<BuddyRow>, rows: seq<SettingRow>, cut: nat, m: nat)
    requires m < |buddies| && cut <= |rows| && Used(buddies, rows, cut, m)
    ensures Used(buddies, rows, cut, m + 1)
    ensures ShowAll(map[]) == OnePass(atoi, rows[..cut], buddies[m].id, m == 0)
    ensures Ahead(rows[..cut], buddies[m].id, m == 0) <==> m > 0
  {
    OnePassSkip(atoi, rows, 0, cut, buddies[m].id, m == 0);
  }

  /** What one buddy's turn ends with. */
  lemma {:induction false} TurnEnds(atoi: string -> int, buddies: seq<BuddyRow>, rows: seq<SettingRow>, cut: nat, m: nat)
    requires Ascending(buddies) && Sorted(rows) && m < |buddies| && cut <= Reach(buddies, rows)
    requires Past(buddies, rows, cut, m)
    requires cut < |rows| ==> rows[cut].buddyId != -1 && rows[cut].buddyId != buddies[m].id
    ensures Past(buddies, rows, cut, m + 1)
    ensures OnePass(atoi, rows[..Reach(buddies, rows)], buddies[m].id, m == 0) == OnePass(atoi, rows[..cut], buddies[m].id, m == 0)
  {
    MovesPast(buddies, rows, cut, m);
    OnePassSkip(atoi, rows, cut, Reach(buddies, rows), buddies[m].id, m == 0);
  }

  /** One more row attached. */
  lemma {:induction false} Attaches(atoi: string -> int, rows: seq<SettingRow>, cut: nat, id: int, first: bool,
                                    m: map<string, Variable>, key: string, v: Variable)
    requires cut < |rows| && Holds(atoi, rows[cut], id, key, v) && (Known(rows[cut]) || Ahead(rows[..cut], id, first))
    requires ShowAll(m) == OnePass(atoi, rows[..cut], id, first)
    ensures ShowAll(m[key := v]) == OnePass(atoi, rows[..cut + 1], id, first)
    ensures !Ahead(rows[..cut + 1], id, first)
  {
    OnePassNext(atoi, rows, cut, id, first);
    assert ShowAll(m[key := v]) == ShowAll(m)[key := Show(v)];
    assert rows[..cut + 1][cut].buddyId == id;
  }

  /** One more row read over. */
  lemma {:induction false} ReadsOver(atoi: string -> int, rows: seq<SettingRow>, cut: nat, id: int, first: bool)
    requires cut < |rows| && (rows[cut].buddyId == id ==> !Known(rows[cut])) && !Ahead(rows[..cut], id, first)
    ensures OnePass(atoi, rows[..cut + 1], id, first) == OnePass(atoi, rows[..cut], id, first)
    ensures !Ahead(rows[..cut + 1], id, first)
  {
    OnePassNext(atoi, rows, cut, id, first);
    if !first {
      var k :| 0 <= k < cut && rows[..cut][k].buddyId == id;
      assert rows[..cut + 1][k].buddyId == id;
    }
  }

  lemma {:induction false} Reads(atoi: string -> int, r: SettingRow, v: Variable)
    ensures Holds(atoi, r, r.buddyId, r.key, Filled(atoi, v, r))
  {
  }

  /** The finished part of the roster. */
  ghost predicate Loaded(atoi: string -> int, buddies: seq<BuddyRow>, rows: seq<SettingRow>, roster: seq<BuddyInfo>) {
    |roster| <= |buddies| && forall m :: 0 <= m < |roster| ==>
      roster[m].row == buddies[m] &&
      ShowAll(roster[m].settings) == OnePass(atoi, rows[..Reach(buddies, rows)], buddies[m].id, m == 0)
  }

  lemma {:induction false} LoadsOne(atoi: string -> int, buddies: seq<BuddyRow>, rows: seq<SettingRow>, roster: seq<BuddyInfo>, b: BuddyInfo)
    requires Loaded(atoi, buddies, rows, roster) && |roster| < |buddies| && b.row == buddies[|roster|]
    requires ShowAll(b.settings) == OnePass(atoi, rows[..Reach(buddies, rows)], b.row.id, |roster| == 0)
    ensures Loaded(atoi, buddies, rows, roster + [b])
  {
  }

  lemma {:induction false} LoadedMeans(atoi: string -> int, buddies: seq<BuddyRow>, rows: seq<SettingRow>, roster: seq<BuddyInfo>)
    requires Loaded(atoi, buddies, rows, roster)
    ensures |roster| <= |buddies|
    ensures forall m :: 0 <= m < |roster| ==>
      roster[m].row == buddies[m] &&
      ShowAll(roster[m].settings) == OnePass(atoi, rows[..Reach(buddies, rows)], buddies[m].id, m == 0)
  {
  }

  /** The settings read ahead: up to next, with one pending unless buddyId is -1. */
  datatype Cursor = Cursor(next: nat, buddyId: int, key: string, variable: Variable)

  /** The cursor has served the first m buddies and attached nothing of the later ones.  From
      the second buddy on, a setting is pending unless all are read. */
  ghost predicate Between(atoi: string -> int, buddies: seq<BuddyRow>, rows: seq<SettingRow>, c: Cursor, m: nat) {
    m <= |buddies| && c.next <= |rows| &&
    (c.buddyId != -1 ==> Pending(atoi, rows, c.next, c.buddyId, c.key, c.variable)) &&
    (c.buddyId == -1 && m > 0 ==> c.next == |rows|) && (m == 0 ==> c.buddyId == -1) &&
    Cut(c.next, c.buddyId) <= Reach(buddies, rows) &&
    Past(buddies, rows, Cut(c.next, c.buddyId), m) && Used(buddies, rows, Cut(c.next, c.buddyId), m)
  }

  /** The cursor is serving buddy m, which has the settings read so far, and nothing is pending. */
  ghost predicate Within(atoi: string -> int, buddies: seq<BuddyRow>, rows: seq<SettingRow>, c: Cursor, m: nat,
                         settings: map<string, Variable>)
    requires m < |buddies|
  {
    c.next <= |rows| && c.buddyId == -1 && c.next <= Reach(buddies, rows) &&
    Past(buddies, rows, c.next, m) && Used(buddies, rows, c.next, m + 1) &&
    (c.next < |rows| ==> !Ahead(rows[..c.next], buddies[m].id, m == 0)) &&
    ShowAll(settings) == OnePass(atoi, rows[..c.next], buddies[m].id, m == 0)
  }

  /** The inner loop of SQLite3Backend::getBuddies: reads on while rows belong to buddy m. */
  method ReadSettings(atoi: string -> int, buddies: seq<BuddyRow>, rows: seq<SettingRow>, m: nat, c: Cursor,
                      before: map<string, Variable>)
    returns (settings: map<string, Variable>, c': Cursor)
    requires Ascending(buddies) && Sorted(rows)
    requires m < |buddies| && Within(atoi, buddies, rows, c, m, before)
    ensures Between(atoi, buddies, rows, c', m + 1)
    ensures ShowAll(settings) == OnePass(atoi, rows[..Reach(buddies, rows)], buddies[m].id, m == 0)
  {
    hide OnePass, Past, Used, Owned, Sorted, Reach, ShowAll, Holds, Filled, Ahead, Known;
    var id := buddies[m].id;
    var next, buddyId, key, variable := c.next, c.buddyId, c.key, c.variable;
    settings := before;
    while buddyId == -1 && next < |rows|
      invariant 0 <= next <= |rows|
      invariant buddyId != -1 ==> buddyId != id && Pending(atoi, rows, next, buddyId, key, variable)
      invariant Cut(next, buddyId) <= Reach(buddies, rows)
      invariant Past(buddies, rows, Cut(next, buddyId), m) && Used(buddies, rows, Cut(next, buddyId), m + 1)
      invariant buddyId == -1 && next < |rows| ==> !Ahead(rows[..next], id, m == 0)
      invariant ShowAll(settings) == OnePass(atoi, rows[..Cut(next, buddyId)], id, m == 0)
      decreases |rows| - next
    {
      Reads(atoi, rows[next], variable);
      if rows[next].buddyId == -1 || rows[next].buddyId == id {
        StepsOver(buddies, rows, next, m);
        if rows[next].buddyId == -1 || !Known(rows[next]) {
          ReadsOver(atoi, rows, next, id, m == 0);
        }
      }
      buddyId, variable, key := rows[next].buddyId, Filled(atoi, variable, rows[next]), rows[next].key;
      next := next + 1;
      if buddyId == id {
        if Known(rows[next - 1]) {
          Attaches(atoi, rows, next - 1, id, m == 0, settings, key, variable);
          settings := settings[key := variable];
        }
        buddyId := -1;
      }
    }
    TurnEnds(atoi, buddies, rows, Cut(next, buddyId), m);
    c' := Cursor(next, buddyId, key, variable);
  }

  /** One turn of the outer loop: the pending setting first, when it is for this buddy. */
  method LoadBuddy(atoi: string -> int, buddies: seq<BuddyRow>, rows: seq<SettingRow>, m: nat, c: Cursor)
    returns (b: BuddyInfo, c': Cursor)
    requires Ascending(buddies) && Sorted(rows)
    requires m < |buddies| && Between(atoi, buddies, rows, c, m)
    ensures Between(atoi, buddies, rows, c', m + 1) && b.row == buddies[m]
    ensures ShowAll(b.settings) == OnePass(atoi, rows[..Reach(buddies, rows)], buddies[m].id, m == 0)
  {
    hide OnePass, Past, Used, Owned, Sorted, Reach, ShowAll, Holds, Ahead;
    var settings := map[];
    c' := c;
    TurnStarts(atoi, buddies, rows, Cut(c.next, c.buddyId), m);
    if c.buddyId == buddies[m].id {
      Attaches(atoi, rows, c.next - 1, buddies[m].id, m == 0, settings, c.key, c.variable);
      StepsOver(buddies, rows, c.next - 1, m);
      settings := settings[c.key := c.variable];
      c' := c.(buddyId := -1);
    }
    if c'.buddyId == -1 {
      settings, c' := ReadSettings(atoi, buddies, rows, m, c', settings);
    } else {
      TurnEnds(atoi, buddies, rows, c.next - 1, m);
    }
    b := BuddyInfo(buddies[m], settings);
  }

  /** SQLite3Backend::getBuddies.  The cursor outlives an iteration: it holds the setting
      read ahead for a later buddy. */
  method GetBuddiesMerged(atoi: string -> int, buddies: seq<BuddyRow>, rows: seq<SettingRow>, unset: Variable)
    returns (roster: seq<BuddyInfo>)
    requires Ascending(buddies) && Sorted(rows)
    ensures |roster| == |buddies|
    ensures forall m :: 0 <= m < |buddies| ==>
      roster[m].row == buddies[m] &&
      ShowAll(roster[m].settings) == OnePass(atoi, rows[..Reach(buddies, rows)], buddies[m].id, m == 0)
  {
    var c := Cursor(0, -1, "", unset);
    roster := [];
    assert Between(atoi, buddies, rows, c, 0) && Loaded(atoi, buddies, rows, []);
    hide *;
    for m := 0 to |buddies|
      invariant |roster| == m && Loaded(atoi, buddies, rows, roster)
      invariant Between(atoi, buddies, rows, c, m)
    {
      var b;
      b, c := LoadBuddy(atoi, buddies, rows, m, c);
      LoadsOne(atoi, buddies, rows, roster, b);
      roster := roster + [b];
    }
    LoadedMeans(atoi, buddies, rows, roster);
  }

  /** The rows already attached or read over. */
  function Cut(next: nat, buddyId: int): nat
    requires buddyId != -1 ==> next > 0
  {
    if buddyId != -1 then next - 1 else next
  }

  predicate Holds(atoi: string -> int, r: SettingRow, buddyId: int, key: string, v: Variable) {
    buddyId == r.buddyId && key == r.key && Show(v) == Meaning(atoi, r)
  }

  // ---------------------------------------------------------------- agreement

  /** A boolean or string row of the buddy, for this key. */
  predicate Sets(r: SettingRow, id: int, key: string) {
    r.buddyId == id && r.key == key && (r.stype == 4 || r.stype == 13)
  }

  /** The last row that sets a key gives its value. */
  lemma {:induction false} LastRowWins(atoi: string -> int, rows: seq<SettingRow>, id: int, key: string, k: nat)
    requires k < |rows| && Sets(rows[k], id, key) && forall l :: k < l < |rows| ==> !Sets(rows[l], id, key)
    ensures key in Attached(atoi, rows, id)
    ensures Attached(atoi, rows, id)[key] == if rows[k].stype == 4 then Flag(atoi(rows[k].val) != 0) else Text(rows[k].val)
  {
    var n := |rows| - 1;
    if k < n {
      assert !Sets(rows[n], id, key);
      LastRowWins(atoi, rows[..n], id, key, k);
    }
  }

  /** A key is attached exactly when a row sets it. */
  lemma {:induction false} AttachedKeys(atoi: string -> int, rows: seq<SettingRow>, id: int, key: string)
    ensures key in Attached(atoi, rows, id) <==> exists k :: 0 <= k < |rows| && Sets(rows[k], id, key)
  {
    if rows != [] {
      var n := |rows| - 1;
      AttachedKeys(atoi, rows[..n], id, key);
      assert Sets(rows[n], id, key) <==> rows[n].buddyId == id && rows[n].key == key && Known(rows[n]);
      hide Sets, Known;
      if k :| 0 <= k < n && Sets(rows[..n][k], id, key) {
        assert Sets(rows[k], id, key);
      }
      if k :| 0 <= k < |rows| && Sets(rows[k], id, key) {
        assert k < n ==> rows[..n][k] == rows[k];
      }
    }
  }

  /** The buddy's first row has an unknown type, and no row of a known type has its key. */
  ghost predicate Shows(rows: seq<SettingRow>, id: int, f: nat) {
    f < |rows| && rows[f].buddyId == id && (forall k :: 0 <= k < f ==> rows[k].buddyId != id) && !Known(rows[f]) &&
    forall k :: 0 <= k < |rows| ==> !Sets(rows[k], id, rows[f].key)
  }

  lemma {:induction false} FirstBuddySame(atoi: string -> int, rows: seq<SettingRow>, id: int)
    ensures OnePass(atoi, rows, id, true) == Attached(atoi, rows, id)
  {
    if rows != [] {
      FirstBuddySame(atoi, rows[..|rows| - 1], id);
    }
  }

  /** With f the first row of the buddy: what the one pass has after n rows. */
  lemma {:induction false} LaterBuddy(atoi: string -> int, rows: seq<SettingRow>, id: int, f: nat, n: nat)
    requires f < n <= |rows| && rows[f].buddyId == id && forall k :: 0 <= k < f ==> rows[k].buddyId != id
    ensures OnePass(atoi, rows[..n], id, false) ==
      if rows[f].key in Attached(atoi, rows[..n], id) || Known(rows[f]) then Attached(atoi, rows[..n], id)
      else Attached(atoi, rows[..n], id)[rows[f].key := Other(rows[f].stype)]
    decreases n
  {
    OnePassNext(atoi, rows, n - 1, id, false);
    AttachedNext(atoi, rows, n - 1, id);
    if n == f + 1 {
      OnePassSkip(atoi, rows, 0, f, id, false);
      AttachedSkip(atoi, rows, 0, f, id);
      assert Ahead(rows[..f], id, false);
    } else {
      LaterBuddy(atoi, rows, id, f, n - 1);
      assert rows[..n - 1][f].buddyId == id;
    }
    hide OnePass, Attached;
  }

  /** The one pass gives a buddy other settings than the nested loops, on the same rows,
      exactly when it is not the first and its first row, of an unknown type, shows. */
  lemma {:induction false} SameSettingsIff(atoi: string -> int, rows: seq<SettingRow>, id: int, first: bool)
    ensures OnePass(atoi, rows, id, first) == Attached(atoi, rows, id) <==> first || forall f :: !Shows(rows, id, f)
  {
    assert rows[..|rows|] == rows;
    if first {
      FirstBuddySame(atoi, rows, id);
    } else if k :| 0 <= k < |rows| && rows[k].buddyId == id {
      var f := FirstRow(rows, id, k);
      LaterBuddy(atoi, rows, id, f, |rows|);
      AttachedKeys(atoi, rows, id, rows[f].key);
      hide OnePass, Attached, Known;
      assert forall g :: Shows(rows, id, g) ==> g == f;
      if rows[f].key !in Attached(atoi, rows, id) && !Known(rows[f]) {
        assert Shows(rows, id, f);
      }
    } else {
      OnePassSkip(atoi, rows, 0, |rows|, id, false);
      AttachedSkip(atoi, rows, 0, |rows|, id);
    }
  }

  lemma {:induction false} FirstRow(rows: seq<SettingRow>, id: int, k: nat) returns (f: nat)
    requires k < |rows| && rows[k].buddyId == id
    ensures f <= k && rows[f].buddyId == id && forall j :: 0 <= j < f ==> rows[j].buddyId != id
  {
    f := 0;
    while rows[f].buddyId != id
      invariant f <= k && forall j :: 0 <= j < f ==> rows[j].buddyId != id
      decreases k - f
    {
      f := f + 1;
    }
  }

  /** A row of buddy m that the settings cursor never reaches. */
  ghost predicate CutOff(buddies: seq<BuddyRow>, rows: seq<SettingRow>, id: int, k: nat) {
    Reach(buddies, rows) <= k < |rows| && rows[k].buddyId == id && Known(rows[k])
  }

  /** The two loads agree on buddy m exactly when no row of a known type for it sorts after a
      row whose buddy is missing, and its first row does not show with an unknown type (the
      first buddy's never does). */
  lemma {:induction false} MergeAgreesOnIff(atoi: string -> int, buddies: seq<BuddyRow>, rows: seq<SettingRow>, m: nat)
    requires Ascending(buddies) && Sorted(rows) && m < |buddies|
    ensures var id := buddies[m].id;
      var read := rows[..Reach(buddies, rows)];
      OnePass(atoi, read, id, m == 0) == Attached(atoi, rows, id) <==>
        (forall k :: !CutOff(buddies, rows, id, k)) && (m == 0 || forall f :: !Shows(read, id, f))
  {
    var id, n := buddies[m].id, Reach(buddies, rows);
    assert rows[..|rows|] == rows;
    if k :| n <= k < |rows| && rows[k].buddyId == id {
      NoneBefore(buddies, rows, m, k);
      OnePassSkip(atoi, rows, 0, n, id, m == 0);
      hide Reach, OnePass, Attached;
      OnlyCutOff(atoi, buddies, rows, id);
      assert forall f :: !Shows(rows[..n], id, f);
    } else {
      AttachedSkip(atoi, rows, n, |rows|, id);
      SameSettingsIff(atoi, rows[..n], id, m == 0);
      hide Shows, OnePass, Attached;
    }
  }

  /** The missing buddy sorts before m, so all rows of m come after it. */
  lemma {:induction false} NoneBefore(buddies: seq<BuddyRow>, rows: seq<SettingRow>, m: nat, k: nat)
    requires Sorted(rows) && m < |buddies| && Reach(buddies, rows) <= k < |rows| && rows[k].buddyId == buddies[m].id
    ensures forall j :: 0 <= j < Reach(buddies, rows) ==> rows[j].buddyId != buddies[m].id
  {
    var n := Reach(buddies, rows);
    assert rows[n].buddyId != buddies[m].id by {
      assert !Owned(buddies, rows[n]);
    }
    assert rows[n].buddyId < buddies[m].id;
  }

  lemma {:induction false} OnlyCutOff(atoi: string -> int, buddies: seq<BuddyRow>, rows: seq<SettingRow>, id: int)
    requires forall j :: 0 <= j < Reach(buddies, rows) ==> rows[j].buddyId != id
    ensures Attached(atoi, rows, id) == map[] <==> forall k :: !CutOff(buddies, rows, id, k)
  {
    hide Reach;
    if k: nat :| CutOff(buddies, rows, id, k) {
      assert Sets(rows[k], id, rows[k].key);
      AttachedKeys(atoi, rows, id, rows[k].key);
    }
    if Attached(atoi, rows, id) != map[] {
      var key :| key in Attached(atoi, rows, id);
      AttachedKeys(atoi, rows, id, key);
      var k :| 0 <= k < |rows| && Sets(rows[k], id, key);
      assert CutOff(buddies, rows, id, k);
    }
  }

  /** Without orphans and unknown types both loads give every buddy the same settings. */
  lemma {:induction false} MergeAgrees(atoi: string -> int, buddies: seq<BuddyRow>, rows: seq<SettingRow>, m: nat)
    requires Ascending(buddies) && Sorted(rows) && forall k :: 0 <= k < |rows| ==> Known(rows[k])
    requires forall k :: 0 <= k < |rows| ==> Owned(buddies, rows[k])
    requires m < |buddies|
    ensures OnePass(atoi, rows[..Reach(buddies, rows)], buddies[m].id, m == 0) == Attached(atoi, rows, buddies[m].id)
  {
    assert Reach(buddies, rows) == |rows|;
    MergeAgreesOnIff(atoi, buddies, rows, m);
  }

  /** With known types only, they agree on every buddy exactly when no buddy's setting sorts
      after a setting whose buddy is missing. */
  lemma {:induction false} MergeAgreesIff(atoi: string -> int, buddies: seq<BuddyRow>, rows: seq<SettingRow>)
    requires Ascending(buddies) && Sorted(rows) && forall k :: 0 <= k < |rows| ==> Known(rows[k])
    ensures (forall m :: 0 <= m < |buddies| ==>
               OnePass(atoi, rows[..Reach(buddies, rows)], buddies[m].id, m == 0) == Attached(atoi, rows, buddies[m].id))
        <==> (forall k :: Reach(buddies, rows) <= k < |rows| ==> !Owned(buddies, rows[k]))
  {
    forall m | 0 <= m < |buddies|
      ensures OnePass(atoi, rows[..Reach(buddies, rows)], buddies[m].id, m == 0) == Attached(atoi, rows, buddies[m].id)
        <==> forall k :: !CutOff(buddies, rows, buddies[m].id, k)
    {
      MergeAgreesOnIff(atoi, buddies, rows, m);
    }
    hide OnePass, Attached, Reach;
    if k :| Reach(buddies, rows) <= k < |rows| && Owned(buddies, rows[k]) {
      var m :| 0 <= m < |buddies| && buddies[m].id == rows[k].buddyId;
      assert CutOff(buddies, rows, buddies[m].id, k);
    }
  }
}
