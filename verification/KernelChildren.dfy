/** What wait does, and where that is not what its comments say. */
module KernelChildren {
  import opened Seqs
  import opened KernelState
  import opened KernelInvariant
  import opened KernelSteps
  import opened KernelRuns
  import opened KernelWaking

  lemma {:induction false} ScanLast(k: K, cs: seq<Pid>, pid: int)
    requires cs != [] && (forall i :: 0 <= i < |cs| ==> cs[i] in k.procs) && pid != 0 && pid !in cs
    ensures ScanChildren(k, cs, pid) == cs[|cs| - 1]
  {
    if |cs| > 1 { ScanLast(k, cs[1..], pid); }
  }

  /** Waiting for a process that is not a child is an error only for a caller without children. Any other caller is
      treated as if it had asked for its last child: a dead one is reaped and returned, a live one makes the caller
      sleep, with `pid` as what it waits for. */
  lemma WaitForStranger(k: K, pid: int, k1: K)
    requires Inv(k) && Follows(k, WaitCall(pid), k1) && pid != 0 && pid !in k.procs[k.running].children
    ensures var me, cs := k.running, k.procs[k.running].children;
            && (me in k1.procs)
            && (k1.running == me && k1.procs[me].ret == DSOS_EWAIT <==> cs == [])
            && (k1.running == me && k1.procs[me].ret < 0 <==> cs == [])
            && (cs != [] ==>
                  var last := cs[|cs| - 1];
                  && last in k.procs
                  && if k.procs[last].status == Zombie then
                       last !in k1.procs && k1.running == me && k1.procs[me].ret == last
                     else
                       me in k1.waiting && k1.running != me
                       && k1.procs[me].call == CALL_WAIT && k1.procs[me].arg0 == pid
                       && k1.procs[me].children == cs)
  {
    hide Inv, Wait, Reap, ScanChildren, SchedInv, FamilyInv, Park, Dispatch;
    EnterKeeps(k, CALL_WAIT, [pid, 0]);
    var k0 := Enter(k, CALL_WAIT, [pid, 0]).value;
    InvParts(k0);
    ChildrenExist(k0);
    WaitShape(k0);
    StepKeeps(k, WaitCall(pid));
    var cs := k.procs[k.running].children;
    if cs != [] {
      ScanLast(k0, cs, pid);
      var last := cs[|cs| - 1];
      assert last in cs;
      if k.procs[last].status == Zombie { Reaped(k0, last); } else { Slept(k0); }
    }
  }

  /** A dead child that would answer a wait for `pid`. */
  ghost predicate DeadMatch(k: K, c: Pid, pid: int) {
    && k.running in k.procs && c in k.procs[k.running].children && c in k.procs
    && k.procs[c].status == Zombie && (pid == 0 || c == pid)
  }

  /** The scan stops at the first child that matches; without one, at the last. */
  lemma {:induction false} ScanStops(k: K, cs: seq<Pid>, pid: int) returns (i: nat)
    requires cs != [] && forall j :: 0 <= j < |cs| ==> cs[j] in k.procs
    ensures i < |cs| && ScanChildren(k, cs, pid) == cs[i]
    ensures forall j :: 0 <= j < i ==> !Matches(k, cs[j], pid)
    ensures Matches(k, cs[i], pid) || i == |cs| - 1
  {
    if |cs| == 1 || Matches(k, cs[0], pid) {
      i := 0;
    } else {
      var j := ScanStops(k, cs[1..], pid);
      i := j + 1;
      forall m | 0 <= m < i ensures !Matches(k, cs[m], pid) {
        if m > 0 { assert !Matches(k, cs[1..][m - 1], pid); }
      }
    }
  }

  /** `r` is the first of the caller's children that is dead. */
  ghost predicate FirstDead(k: K, r: Pid) {
    && k.running in k.procs
    && var cs := k.procs[k.running].children;
       exists i :: 0 <= i < |cs| && cs[i] == r && r in k.procs && k.procs[r].status == Zombie
                   && forall j :: 0 <= j < i ==> cs[j] in k.procs && k.procs[cs[j]].status != Zombie
  }

  lemma ScansFirstDead(k: K, k0: K)
    requires k.running in k.procs && k0.procs.Keys == k.procs.Keys
    requires forall p :: p in k.procs ==> k0.procs[p].status == k.procs[p].status
    requires var cs := k.procs[k.running].children;
             && cs != [] && (forall j :: 0 <= j < |cs| ==> cs[j] in k0.procs)
             && k0.procs[ScanChildren(k0, cs, 0)].status == Zombie
    ensures FirstDead(k, ScanChildren(k0, k.procs[k.running].children, 0))
  {
    hide ScanChildren;
    var cs := k.procs[k.running].children;
    var i := ScanStops(k0, cs, 0);
    assert cs[i] == ScanChildren(k0, cs, 0);
    forall j | 0 <= j < i ensures cs[j] in k.procs && k.procs[cs[j]].status != Zombie {
      assert !Matches(k0, cs[j], 0);
    }
  }

  /** Waiting for any child, or for one that there is: if one that fits is dead, it is returned (the first one, when any
      will do), and it is gone from the caller's list, from the zombies and from the system; otherwise the caller sleeps
      until one dies. */
  lemma WaitForChild(k: K, pid: int, k1: K)
    requires Inv(k) && Follows(k, WaitCall(pid), k1)
    requires k.procs[k.running].children != [] && (pid == 0 || pid in k.procs[k.running].children)
    ensures k.running in k1.procs
    ensures var me, r := k.running, k1.procs[k.running].ret;
            if exists c :: DeadMatch(k, c, pid) then
              && k1.running == me && DeadMatch(k, r, pid) && r !in k1.procs && r !in k1.zombies
              && (pid == 0 ==> FirstDead(k, r))
              && k1.procs[me].children == Without(k.procs[me].children, r) && r !in k1.procs[me].children
            else
              && me in k1.waiting && k1.running != me
              && k1.procs[me].call == CALL_WAIT && k1.procs[me].arg0 == pid
              && k1.procs[me].children == k.procs[me].children
  {
    hide Inv, Wait, Reap, ScanChildren, SchedInv, FamilyInv, Park, Dispatch;
    EnterKeeps(k, CALL_WAIT, [pid, 0]);
    var k0 := Enter(k, CALL_WAIT, [pid, 0]).value;
    InvParts(k0);
    ChildrenExist(k0);
    WaitShape(k0);
    var cs := k.procs[k.running].children;
    var c := ScanChildren(k0, cs, pid);
    forall x | DeadMatch(k, x, pid) ensures Matches(k0, x, pid) && k0.procs[x].status == Zombie {}
    if k0.procs[c].status == Zombie {
      assert Matches(k0, c, pid) by { if pid != 0 { assert Matches(k0, pid, pid); } }
      assert DeadMatch(k, c, pid);
      if pid == 0 { ScansFirstDead(k, k0); }
      Reaped(k0, c);
      ReapedLists(k0, c);
    } else {
      Slept(k0);
    }
  }

  lemma ReapedLists(k: K, c: Pid)
    requires SchedInv(k) && FamilyInv(k) && k.running in k.procs && c in k.procs && c != k.running && Reap(k, c).Ok?
    ensures var r := Reap(k, c).value;
            && c !in r.zombies && k.running in r.procs && c !in r.procs[k.running].children
            && r.procs[k.running].children == Without(k.procs[k.running].children, c)
  {
    assert FamilyOk(k, k.running);
    WithoutMembers(k.zombies, c);
    WithoutMembers(k.procs[k.running].children, c);
  }

  lemma Reaped(k: K, c: Pid)
    requires SchedInv(k) && k.running in k.procs && c in k.procs && c != k.running && Reap(k, c).Ok?
    ensures var r := Reap(k, c).value;
            c !in r.procs && r.running == k.running && r.running in r.procs && r.procs[k.running].ret == c && c >= 0
  {
  }

  lemma Slept(k: K)
    requires Inv(k) && Park(k).Ok? && Dispatch(Park(k).value).Ok? && Park(k).value.ready == k.ready
    ensures var r := Dispatch(Park(k).value).value;
            && k.running in r.waiting && r.running != k.running && k.running in r.procs
            && r.procs[k.running].call == k.procs[k.running].call
            && r.procs[k.running].arg0 == k.procs[k.running].arg0
            && r.procs[k.running].children == k.procs[k.running].children
  {
    hide ReasonInv, TimerInv, DescInv, FamilyInv, PoolInv;
    assert Placed(k, k.ready[0], Ready);
  }

  // ---- such a caller sleeps for ever

  /** Asleep in wait for a process that is not its child. */
  ghost predicate AwaitsStranger(k: K, p: Pid) {
    && p in k.waiting && p in k.procs && k.procs[p].call == CALL_WAIT
    && k.procs[p].arg0 != 0 && k.procs[p].arg0 !in k.procs[p].children
  }

  /** What a step leaves of a process that is not running: its last call, and no new children. */
  ghost predicate KeepsCall(k: K, k1: K, p: Pid) {
    && p in k.procs && p in k1.procs
    && k1.procs[p].call == k.procs[p].call && k1.procs[p].arg0 == k.procs[p].arg0
    && forall c :: c in k1.procs[p].children ==> c in k.procs[p].children
  }

  lemma WakeCalls(k: K, at: nat, p: Pid)
    requires WakeElapsed(k, at).Ok? && p in k.procs
    ensures KeepsCall(k, WakeElapsed(k, at).value, p)
    decreases |k.timers|
  {
    if Elapsed(k) && WakeFirst(k, at).Ok? { WakeCalls(WakeFirst(k, at).value, at + 1, p); }
  }

  lemma ScheduleCalls(k: K, p: Pid)
    requires Schedule(k).Ok? && p in k.procs
    ensures KeepsCall(k, Schedule(k).value, p)
  {
    hide WakeElapsed;
    WakeCalls(k, 0, p);
  }

  lemma SemCalls(k: K, p: Pid)
    requires p in k.procs && p != k.running
    ensures SemWait(k).Ok? ==> KeepsCall(k, SemWait(k).value, p)
    ensures SemPost(k).Ok? ==> KeepsCall(k, SemPost(k).value, p)
  {
    hide SemWait, SemPost;
    SemWaitCalls(k, p);
    SemPostCalls(k, p);
  }

  lemma SemWaitCalls(k: K, p: Pid)
    requires p in k.procs && p != k.running
    ensures SemWait(k).Ok? ==> KeepsCall(k, SemWait(k).value, p)
  {
  }

  lemma SemPostCalls(k: K, p: Pid)
    requires p in k.procs && p != k.running
    ensures SemPost(k).Ok? ==> KeepsCall(k, SemPost(k).value, p)
  {
  }

  lemma OpenDescCalls(k: K, s: Ref, p: Pid)
    requires p in k.procs && k.running in k.procs && p != k.running && OpenDesc(k, s).Ok?
    ensures KeepsCall(k, OpenDesc(k, s).value, p)
  {
  }

  lemma OpenCalls(k: K, p: Pid)
    requires p in k.procs && p != k.running && SemOpen(k).Ok?
    ensures KeepsCall(k, SemOpen(k).value, p)
  {
    hide OpenDesc;
    var me := k.procs[k.running];
    if me.arg1 >= 0 && me.arg0 >= 0 {
      match ById(k.sems, k.semList, me.arg0)
      case Some(s) => OpenDescCalls(k, s, p);
      case None => if k.freeSems != [] { OpenDescCalls(AllocSem(k, me.arg0, me.arg1), k.nextRef, p); }
    }
  }

  lemma CloseCalls(k: K, p: Pid)
    requires p in k.procs && p != k.running && SemClose(k).Ok?
    ensures KeepsCall(k, SemClose(k).value, p)
  {
  }

  lemma SpawnSleepCalls(k: K, p: Pid)
    requires SchedInv(k) && p in k.procs && p != k.running
    ensures Spawn(k).Ok? ==> KeepsCall(k, Spawn(k).value, p)
    ensures Sleep(k).Ok? ==> KeepsCall(k, Sleep(k).value, p)
  {
  }

  lemma {:induction false} WithoutSub<T>(s: seq<T>, x: T)
    ensures forall y :: y in Without(s, x) ==> y in s
  {
    if s != [] { WithoutSub(s[1..], x); }
  }

  lemma ExitCalls(k: K, p: Pid)
    requires CleanExit(k) && Exit(k).Ok? && p in k.procs && p != k.running
    ensures KeepsCall(k, Exit(k).value, p)
  {
    hide Leave;
    LeaveCalls(Valued(k), p);
  }

  lemma LeaveCalls(k: K, p: Pid)
    requires k.running in k.procs && Leave(k).Ok? && p in k.procs && p != k.running
    ensures KeepsCall(k, Leave(k).value, p)
  {
    hide DropTimers;
    WithoutSub(k.procs[p].children, k.running);
  }

  lemma WaitCalls(k: K, p: Pid)
    requires Inv(k) && k.running in k.procs && k.procs[k.running].call == CALL_WAIT && Wait(k).Ok?
    requires p in k.waiting
    ensures KeepsCall(k, Wait(k).value, p)
  {
    hide Inv, Wait, Reap, ScanChildren;
    WaitShape(k);
    WaitingPlace(k, p);
    var me := k.procs[k.running];
    if me.children != [] {
      var c := ScanChildren(k, me.children, me.arg0);
      if k.procs[c].status == Zombie { ReapCalls(k, c, p); }
    }
  }

  lemma WaitingPlace(k: K, p: Pid)
    requires Inv(k) && p in k.waiting
    ensures Placed(k, p, Waiting)
  {
    hide ReasonInv, TimerInv, DescInv, FamilyInv, PoolInv;
  }

  lemma ReapCalls(k: K, c: Pid, p: Pid)
    requires k.running in k.procs && c in k.procs && p in k.procs && p != c && p != k.running && Reap(k, c).Ok?
    ensures KeepsCall(k, Reap(k, c).value, p)
  {
  }

  lemma StepCalls(k: K, e: Event, k1: K, p: Pid)
    requires Inv(k) && Follows(k, e, k1) && p in k.waiting
    ensures KeepsCall(k, k1, p)
  {
    hide Inv, SchedInv, Schedule, Exit, Wait, Sleep, SemOpen, SemClose, SemWait, SemPost, Spawn;
    WaitingPlace(k, p);
    match e
    case TickEvent => ScheduleCalls(k.(now := k.now + 1), p);
    case PreemptCall => ScheduleCalls(Enter(k, CALL_PREEMPT, []).value, p);
    case SpawnCall =>
      EnterKeeps(k, CALL_SPAWN, [0, 0]);
      InvParts(Enter(k, CALL_SPAWN, [0, 0]).value);
      SpawnSleepCalls(Enter(k, CALL_SPAWN, [0, 0]).value, p);
    case SleepCall(n) =>
      EnterKeeps(k, CALL_SLEEP, [n]);
      InvParts(Enter(k, CALL_SLEEP, [n]).value);
      SpawnSleepCalls(Enter(k, CALL_SLEEP, [n]).value, p);
    case ExitCall(v) => ExitCalls(Enter(k, CALL_EXIT, [v]).value, p);
    case WaitCall(c) =>
      EnterKeeps(k, CALL_WAIT, [c, 0]);
      WaitCalls(Enter(k, CALL_WAIT, [c, 0]).value, p);
    case SemOpenCall(id, c) => OpenCalls(Enter(k, CALL_SEMOPEN, [id, c]).value, p);
    case SemCloseCall(fd) => CloseCalls(Enter(k, CALL_SEMCLOSE, [fd]).value, p);
    case SemWaitCall(fd) => SemCalls(Enter(k, CALL_SEMWAIT, [fd]).value, p);
    case SemPostCall(fd) => SemCalls(Enter(k, CALL_SEMPOST, [fd]).value, p);
  }

  lemma StrangerStays(k: K, e: Event, k1: K, p: Pid)
    requires Inv(k) && Follows(k, e, k1) && AwaitsStranger(k, p)
    ensures AwaitsStranger(k1, p)
  {
    hide Inv, Step, Follows, FamilyInv, SchedInv;
    StepCalls(k, e, k1, p);
    FollowsStep(k, e, k1);
    WokenExactly(k, e, k1, p);
    if e.ExitCall? {
      InvParts(k);
      ParentFacts(k);
    }
  }

  /** No run of the kernel ever wakes a process that waits for a process that is not its child. */
  lemma {:induction false} SleepsForEver(ks: seq<K>, es: seq<Event>, p: Pid)
    requires Run(ks, es) && Inv(ks[0]) && AwaitsStranger(ks[0], p)
    ensures AwaitsStranger(ks[|es|], p) && ks[|es|].running != p
  {
    hide Inv, Step, Follows;
    RunInv(ks, es);
    if es != [] {
      RunPrefix(ks, es);
      var n := |es| - 1;
      SleepsForEver(ks[..|es|], es[..n], p);
      assert ks[..|es|][n] == ks[n];
      StrangerStays(ks[n], es[n], ks[n + 1], p);
    }
    WaitingPlace(ks[|es|], p);
  }
}
