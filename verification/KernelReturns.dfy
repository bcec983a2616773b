/** What a spawn and the calls that sleep return, and how long a dead process stays. */
module KernelReturns {
  import opened Seqs
  import opened KernelState
  import opened KernelInvariant
  import opened KernelSteps
  import opened KernelEffects
  import opened KernelRuns
  import opened KernelPlaces
  import opened KernelFrames
  import opened KernelTables
  import opened KernelResults
  import opened KernelWaking
  import opened KernelChildren

  /** Spawn returns the next pid, which no process has, to the caller; that process is the caller's last child, last in
      the ready queue, and has no children and no open semaphores. */
  lemma SpawnCreates(k: K, k1: K)
    requires Inv(k) && Follows(k, SpawnCall, k1)
    ensures k1.running == k.running && k.running in k1.procs
    ensures var me, p := k.running, k1.procs[k.running].ret;
            && p == k.lastPid && k1.lastPid == p + 1 && p !in k.procs && p in k1.procs && p > 0
            && k1.procs[me].children == k.procs[me].children + [p] && k1.ready == k.ready + [p]
            && k1.procs[p].parent == me && k1.procs[p].status == Ready
            && k1.procs[p].children == [] && k1.procs[p].semDescs == [] && k1.procs[p].lastSemFd == 0
  {
    hide TimerInv, ReasonInv, DescInv, FamilyInv;
    assert k.freePcbs[0] in k.freePcbs;
  }

  /** A process's numbers are 0, 1, 2, ... in the order of its successful opens: nothing else moves the next one. */
  lemma NumbersCount(k: K, e: Event, k1: K, p: Pid)
    requires Inv(k) && Follows(k, e, k1) && p in k.procs && p in k1.procs
    ensures k1.procs[p].lastSemFd ==
            k.procs[p].lastSemFd + One(p == k.running && e.SemOpenCall? && CanOpenSem(k, e.id, e.count))
  {
    hide Inv, Step, Follows, CanOpenSem;
    FollowsStep(k, e, k1);
    if p != k.running {
      BystanderStep(k, e, k1, p);
    } else if e.SemOpenCall? {
      OpenNumber(k, e.id, e.count);
    } else {
      CallerStep(k, e, k1);
    }
  }

  lemma OpenNumber(k: K, id: int, count: int)
    requires Inv(k) && k.running in k.procs && Step(k, SemOpenCall(id, count)).Ok?
    ensures var k1 := Step(k, SemOpenCall(id, count)).value;
            && k.running in k1.procs
            && k1.procs[k.running].lastSemFd == k.procs[k.running].lastSemFd + One(CanOpenSem(k, id, count))
  {
    hide Inv, SemOpen, OpenDesc, ById, AllIn, Unused;
    EnterKeeps(k, CALL_SEMOPEN, [id, count]);
    var k0 := Enter(k, CALL_SEMOPEN, [id, count]).value;
    SemOpenShape(k0);
    if id >= 0 && count >= 0 {
      FoundOrUnused(k0, id);
      assert Unused(k0, id) == Unused(k, id) by { EnteredIds(k, k0, id); }
      match ById(k0.sems, k0.semList, id)
      case Some(s) => OpenDescFrame(k0, s, k.running);
      case None => if k.freeSems != [] { OpenDescFrame(AllocSem(k0, id, count), k.nextRef, k.running); }
    }
  }

  // ---- what a call that sleeps returns

  /** The exit of a child that its parent awaits: the parent runs, with the child's pid as the result of its wait, and
      nothing is left of the child. */
  lemma ExitHandsBack(k: K, v: int, k1: K)
    requires Inv(k) && Follows(k, ExitCall(v), k1) && HandsBack(k, ExitCall(v))
    ensures var c, p := k.running, k.procs[k.running].parent;
            && k1.running == p && p in k1.procs && k1.procs[p].ret == c && k1.procs[p].status == Running
            && c !in k1.procs && c !in k1.zombies
            && c in k.procs[p].children && c !in k1.procs[p].children
            && k1.procs[p].children == Without(k.procs[p].children, c)
  {
    hide Inv, Step, SchedInv, FamilyInv, Follows, EffectOf;
    var c, p := k.running, k.procs[k.running].parent;
    StepInv(k, ExitCall(v), k1);
    FollowsStep(k, ExitCall(v), k1);
    StepKeeps(k, ExitCall(v));
    InvParts(k);
    ParentFacts(k);
    assert k1.running == p by { Replaces(k, v, k1); }
    BystanderStep(k, ExitCall(v), k1, p);
    ExactlyOnePlace(k1, c);
    assert multiset(k1.zombies)[c] == 0;
    ChildOnce(k, p);
    WithoutMembers(k.procs[p].children, c);
  }

  lemma Replaces(k: K, v: int, k1: K)
    requires HandsBack(k, ExitCall(v)) && Shows(k, EffectOf(k, ExitCall(v)), k1)
    ensures k1.running == k.procs[k.running].parent
  {
  }

  lemma ChildOnce(k: K, p: Pid)
    requires FamilyInv(k) && p in k.procs
    ensures NoDup(k.procs[p].children)
  {
    assert FamilyOk(k, p);
  }

  /** All along the run but in its last state, `p` waits. */
  ghost predicate WaitsAlong(ks: seq<K>, es: seq<Event>, p: Pid) {
    && Run(ks, es) && Inv(ks[0]) && es != []
    && forall i :: 0 <= i < |es| ==> p in ks[i].waiting
  }

  lemma {:induction false} CallAlong(ks: seq<K>, es: seq<Event>, p: Pid)
    requires WaitsAlong(ks, es, p)
    ensures var k := ks[|es| - 1]; KeepsCall(ks[0], k, p) && k.procs[p].ret == ks[0].procs[p].ret && p != k.running
  {
    hide Inv, Step, Follows;
    RunInv(ks, es);
    var n := |es| - 1;
    WaitingPlace(ks[n], p);
    if n > 0 {
      RunPrefix(ks, es);
      var ks0, es0 := ks[..|es|], es[..n];
      assert forall i :: 0 <= i < |es0| ==> ks0[i] == ks[i];
      CallAlong(ks0, es0, p);
      assert Follows(ks[n - 1], es[n - 1], ks[n]);
      WaitingPlace(ks[n - 1], p);
      StepCalls(ks[n - 1], es[n - 1], ks[n], p);
      BystanderStep(ks[n - 1], es[n - 1], ks[n], p);
    }
  }

  /** Over every run, what a sleeping call returns when its caller wakes: a wait returns, to its caller, the pid of a
      child the caller had when it went to sleep, that fits what the wait asked for, and that has just exited and is
      gone; a semwait returns 0; and a sleep leaves the caller's last result as it was. */
  lemma SleeperReturns(ks: seq<K>, es: seq<Event>, p: Pid)
    requires WaitsAlong(ks, es, p) && p !in ks[|es|].waiting
    ensures p in ks[0].procs && p in ks[|es|].procs
    ensures var c, k, k1 := ks[0].procs[p], ks[|es| - 1], ks[|es|];
            && (c.call == CALL_WAIT || c.call == CALL_SEMWAIT || c.call == CALL_SLEEP)
            && (c.call == CALL_WAIT ==>
                  && es[|es| - 1].ExitCall? && k1.running == p && k1.procs[p].ret == k.running
                  && k.running in c.children && (c.arg0 == 0 || c.arg0 == k.running) && k.running !in k1.procs)
            && (c.call == CALL_SEMWAIT ==> k1.running == p && k1.procs[p].ret == 0)
            && (c.call == CALL_SLEEP ==> k1.procs[p].ret == c.ret)
  {
    hide Inv, SchedInv, ReasonInv, FamilyInv, Step, Follows, Answers;
    var n := |es| - 1;
    var k, e, k1 := ks[n], es[n], ks[n + 1];
    RunInv(ks, es);
    RunPrefix(ks, es);
    CallAlong(ks, es, p);
    InvParts(k);
    ReasonKind(k, p);
    WokenExactly(k, e, k1, p);
    FollowsStep(k, e, k1);
    assert p in k.waiting;
    if k.procs[p].call == CALL_WAIT {
      ChildAnswers(k, e, k1, p);
    } else if k.procs[p].call == CALL_SEMWAIT {
      PostAnswers(k, e, k1, p);
    } else {
      TimerAnswers(k, e, k1, p);
    }
  }

  lemma ChildAnswers(k: K, e: Event, k1: K, p: Pid)
    requires Inv(k) && Follows(k, e, k1) && p in k.waiting && p in k.procs && k.procs[p].call == CALL_WAIT
    requires Answers(k, e, p)
    ensures e.ExitCall? && k1.running == p && p in k1.procs && k1.procs[p].ret == k.running && k.running !in k1.procs
    ensures k.running in k.procs[p].children && (k.procs[p].arg0 == 0 || k.procs[p].arg0 == k.running)
  {
    hide Inv, Step, SchedInv, FamilyInv;
    InvParts(k);
    ParentFacts(k);
    WaitingPlace(k, p);
    ExitHandsBack(k, e.value, k1);
  }

  lemma PostAnswers(k: K, e: Event, k1: K, p: Pid)
    requires Inv(k) && Follows(k, e, k1) && p in k.waiting && p in k.procs && k.procs[p].call == CALL_SEMWAIT
    requires Answers(k, e, p)
    ensures k1.running == p && p in k1.procs && k1.procs[p].ret == 0
  {
    hide Inv, Step, IsOpen, Lookup;
    StepInv(k, e, k1);
    WaitPostResult(k, e, k1);
    IsOpenLookup(k, e.fd);
  }

  lemma TimerAnswers(k: K, e: Event, k1: K, p: Pid)
    requires Inv(k) && Follows(k, e, k1) && p in k.waiting && p in k.procs && k.procs[p].call == CALL_SLEEP
    requires Answers(k, e, p)
    ensures p in k1.procs && k1.procs[p].ret == k.procs[p].ret
  {
    hide Inv, Step;
    WaitingPlace(k, p);
    StepCalls(k, e, k1, p);
    BystanderStep(k, e, k1, p);
  }

  // ---- what a dead child leaves

  /** A pid is never used again. */
  lemma {:induction false} GoneForGood(ks: seq<K>, es: seq<Event>, p: Pid)
    requires Run(ks, es) && Inv(ks[0]) && p !in ks[0].procs && p < ks[0].lastPid
    ensures p !in ks[|es|].procs && p < ks[|es|].lastPid
  {
    hide Inv, Step, Follows;
    RunInv(ks, es);
    if es != [] {
      RunPrefix(ks, es);
      GoneForGood(ks[..|es|], es[..|es| - 1], p);
      assert ks[..|es|][|es| - 1] == ks[|es| - 1];
      ClockStep(ks[|es| - 1], es[|es| - 1], ks[|es|]);
    }
  }

  lemma DeadPlace(k: K, p: Pid)
    requires Inv(k)
    ensures p in k.zombies ==>
              p in k.procs && p != k.running && p !in k.ready && p !in k.waiting && 0 <= p < k.lastPid
              && k.procs[p].status == Zombie
    ensures p in k.procs && p != k.running && p !in k.ready && p !in k.waiting ==> p in k.zombies
  {
    hide ReasonInv, TimerInv, DescInv, FamilyInv, PoolInv;
    ExactlyOnePlace(k, p);
    if p in k.zombies { assert Placed(k, p, Zombie); }
    assert p in k.ready ==> multiset(k.ready)[p] > 0;
    assert p in k.waiting ==> multiset(k.waiting)[p] > 0;
  }

  /** A dead process stays as it is until it is removed. */
  lemma DeadStays(k: K, e: Event, k1: K, p: Pid)
    requires Inv(k) && Follows(k, e, k1) && p in k.zombies && p in k1.procs
    ensures p in k.procs && p in k1.zombies && Kept(k, k1, p)
  {
    hide Inv, Step, Shows, EffectOf, Follows;
    StepInv(k, e, k1);
    DeadPlace(k, p);
    DeadPlace(k1, p);
    BystanderStep(k, e, k1, p) by { FollowsStep(k, e, k1); }
    FollowsStep(k, e, k1);
    StaysDead(k, e, k1, p);
    if HandsBack(k, e) { AwaitedWaits(k, e); }
  }

  lemma AwaitedWaits(k: K, e: Event)
    requires Inv(k) && HandsBack(k, e) && CleanExit(k)
    ensures k.procs[k.running].parent in k.waiting
  {
    hide Inv, SchedInv, FamilyInv;
    InvParts(k);
    ParentFacts(k);
  }

  lemma StaysDead(k: K, e: Event, k1: K, p: Pid)
    requires Inv(k) && k.running in k.procs && Shows(k, EffectOf(k, e), k1)
    requires p in k.procs && p != k.running && p !in k.ready && p !in k.waiting && p < k.lastPid
    ensures p != k1.running && p !in k1.ready && p !in k1.waiting
  {
    hide Inv, SchedInv, PostHead, PostHandsOff, WouldBlock, ElapsedPids;
    InvParts(k);
    if Scheduling(e) { FiredOwners(k, ClockAt(k, e)); }
    PidsNat(k);
  }

  /** Over every run after an exit: the exit value is there for as long as the dead process is, which is until somebody
      removes it, for good. */
  lemma {:induction false} ExitValueStays(k: K, v: int, ks: seq<K>, es: seq<Event>)
    requires Inv(k) && Run(ks, es) && Follows(k, ExitCall(v), ks[0])
    ensures k.running in ks[|es|].procs ==>
              k.running in ks[|es|].zombies && ks[|es|].procs[k.running].exitValue == v
    ensures k.running < ks[|es|].lastPid
    decreases |es|
  {
    hide Inv, Step, Follows;
    StepInv(k, ExitCall(v), ks[0]);
    RunInv(ks, es);
    if es == [] {
      Dies(k, v, ks[0]);
    } else {
      var n := |es| - 1;
      RunPrefix(ks, es);
      ExitValueStays(k, v, ks[..|es|], es[..n]);
      assert ks[..|es|][n] == ks[n];
      ClockStep(ks[n], es[n], ks[n + 1]);
      if k.running in ks[n + 1].procs { DeadStays(ks[n], es[n], ks[n + 1], k.running); }
    }
  }

  lemma Dies(k: K, v: int, k1: K)
    requires Inv(k) && Follows(k, ExitCall(v), k1)
    ensures k.running in k1.procs ==> k.running in k1.zombies && k1.procs[k.running].exitValue == v
    ensures k.running < k1.lastPid
  {
    hide Inv, Step, Shows, Follows, SchedInv;
    FollowsStep(k, ExitCall(v), k1);
    StepInv(k, ExitCall(v), k1);
    ClockStep(k, ExitCall(v), k1);
    InvParts(k);
    PidBelow(k);
    if k.running in k1.procs {
      CallerStep(k, ExitCall(v), k1);
      ExitClock(k, v);
    }
  }

  lemma PidBelow(k: K)
    requires SchedInv(k) && k.running in k.procs
    ensures k.running < k.lastPid
  {
  }
}
