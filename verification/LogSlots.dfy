/** m_pids: slot i belongs to the backend process started with log id i+1; 0 marks a
    free slot. */
module LogSlots {
  import opened Lists

  /** std::find(m_pids, pid), or |pids| when absent. */
  function Find(pids: seq<nat>, pid: nat): (i: nat)
    ensures i <= |pids|
    ensures i < |pids| ==> pids[i] == pid
    ensures forall j :: 0 <= j < i ==> pids[j] != pid
  {
    if pids == [] || pids[0] == pid then 0 else 1 + Find(pids[1..], pid)
  }

  method IndexOf(pids: seq<nat>, pid: nat) returns (i: nat)
    ensures i == Find(pids, pid)
  {
    i := 0;
    while i < |pids| && pids[i] != pid
      invariant i <= |pids|
      invariant Find(pids, pid) == i + Find(pids[i..], pid)
    {
      assert pids[i..][1..] == pids[i + 1..];
      i := i + 1;
    }
  }

  function Spawn(pids: seq<nat>, pid: nat): seq<nat> {
    var i := Find(pids, 0);
    if i == |pids| then pids + [pid] else pids[i := pid]
  }

  function Terminate(pids: seq<nat>, pid: nat): seq<nat> {
    var i := Find(pids, pid);
    if i == |pids| then pids else pids[i := 0]
  }

  /** Processes believed alive. */
  function Live(pids: seq<nat>): nat {
    if pids == [] then 0 else (if pids[0] == 0 then 0 else 1) + Live(pids[1..])
  }

  ghost predicate Distinct(pids: seq<nat>) {
    forall i, j :: 0 <= i < j < |pids| && pids[i] == pids[j] ==> pids[i] == 0
  }

  lemma {:induction false} LiveUpdate(pids: seq<nat>, i: nat, pid: nat)
    requires i < |pids|
    ensures Live(pids[i := pid]) == Live(pids) - (if pids[i] == 0 then 0 else 1) + (if pid == 0 then 0 else 1)
  {
    if i > 0 {
      assert pids[i := pid][1..] == pids[1..][i - 1 := pid];
      LiveUpdate(pids[1..], i - 1, pid);
    }
  }

  lemma {:induction false} LiveAppend(pids: seq<nat>, pid: nat)
    ensures Live(pids + [pid]) == Live(pids) + (if pid == 0 then 0 else 1)
  {
    if pids != [] {
      assert (pids + [pid])[1..] == pids[1..] + [pid];
      LiveAppend(pids[1..], pid);
    }
  }

  lemma {:induction false} LiveFull(pids: seq<nat>)
    ensures Live(pids) <= |pids|
    ensures 0 !in pids <==> Live(pids) == |pids|
  {
    if pids != [] { LiveFull(pids[1..]); }
  }

  /** A new process takes a slot of its own; the running ones keep theirs, and the table
      only grows when every slot is in use. */
  lemma {:induction false} SpawnTakesOwnSlot(pids: seq<nat>, pid: nat)
    requires Distinct(pids) && pid != 0 && pid !in pids
    ensures var q := Spawn(pids, pid);
      && Distinct(q) && pid in q
      && (forall i :: 0 <= i < |pids| && pids[i] != 0 ==> q[i] == pids[i])
      && Live(q) == Live(pids) + 1
      && |q| <= (if |pids| > Live(q) then |pids| else Live(q))
  {
    var i := Find(pids, 0);
    LiveFull(pids);
    if i == |pids| { LiveAppend(pids, pid); } else { LiveUpdate(pids, i, pid); }
    assert Spawn(pids, pid)[i] == pid;
  }

  /** A terminated process frees its own slot and no other. */
  lemma {:induction false} TerminateFreesOneSlot(pids: seq<nat>, pid: nat)
    requires Distinct(pids) && pid != 0
    ensures var q := Terminate(pids, pid);
      && Distinct(q) && |q| == |pids| && pid !in q
      && (forall i :: 0 <= i < |pids| && pids[i] != pid ==> q[i] == pids[i])
      && Live(q) == Live(pids) - (if pid in pids then 1 else 0)
  {
    var i := Find(pids, pid);
    if i < |pids| { LiveUpdate(pids, i, 0); }
  }
}
