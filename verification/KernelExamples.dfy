/** Runs from start-up in which the code does not do what one would expect of it. */
module KernelExamples {
  import opened Outcomes
  import opened KernelState
  import opened KernelInvariant
  import opened KernelSteps
  import opened KernelExit
  import opened KernelEffects
  import opened KernelSemaphores
  import opened KernelRuns
  import opened KernelTables
  import opened KernelResults
  import opened KernelChildren

  function After(k: K, es: seq<Event>): Outcome<K> {
    if es == [] then Ok(k)
    else
      var k1 :- After(k, es[..|es| - 1]);
      Step(k1, es[|es| - 1])
  }

  // ---- children

  /** The queues and the process table; no timers, and room for `room` more processes. */
  datatype Stage = Stage(
    running: Pid,
    ready: seq<Pid>,
    waiting: seq<Pid>,
    zombies: seq<Pid>,
    procs: map<Pid, Proc>,
    lastPid: Pid,
    room: nat)

  ghost predicate At(k: K, s: Stage) {
    && k.running == s.running && k.ready == s.ready && k.waiting == s.waiting && k.zombies == s.zombies
    && k.timers == [] && k.procs == s.procs && k.lastPid == s.lastPid && k.freeDescs > 0 && k.freeSems != []
    && |k.freePcbs| >= s.room && k.freePcbPtrs >= s.room && forall i :: 0 <= i < |k.freePcbs| ==> k.freePcbs[i] == []
  }

  function P(status: Status, parent: Pid, children: seq<Pid>, call: int, arg0: int, ret: int): Proc {
    Proc(status, parent, children, false, 0, [], call, arg0, 0, ret, 0)
  }

  /** Init alone; init with one child; with two; the first child runs; it has a child of its own; it has exited and the
      second child runs; init runs again; init waits for the grandchild, which runs; the grandchild has exited. */
  function StageAt(i: nat): Stage {
    var p1, p2, p3 := P(Ready, 0, [], 0, 0, 0), P(Ready, 0, [], 0, 0, 0), P(Ready, 1, [], 0, 0, 0);
    match i
    case 0 =>
      Stage(0, [], [], [], map[0 := P(Running, NULL, [], 0, 0, 0)], 1, 3)
    case 1 =>
      Stage(0, [1], [], [], map[0 := P(Running, NULL, [1], CALL_SPAWN, 0, 1), 1 := p1], 2, 2)
    case 2 =>
      Stage(0, [1, 2], [], [], map[0 := P(Running, NULL, [1, 2], CALL_SPAWN, 0, 2), 1 := p1, 2 := p2], 3, 1)
    case 3 =>
      Stage(1, [2, 0], [], [],
            map[0 := P(Ready, NULL, [1, 2], CALL_PREEMPT, 0, 2), 1 := p1.(status := Running), 2 := p2], 3, 1)
    case 4 =>
      Stage(1, [2, 0, 3], [], [],
            map[0 := P(Ready, NULL, [1, 2], CALL_PREEMPT, 0, 2), 1 := P(Running, 0, [3], CALL_SPAWN, 0, 3),
            2 := p2, 3 := p3], 4, 0)
    case 5 =>
      Stage(2, [0, 3], [], [1],
            map[0 := P(Ready, NULL, [1, 2, 3], CALL_PREEMPT, 0, 2), 1 := P(Zombie, 0, [], CALL_EXIT, 0, 3),
            2 := p2.(status := Running), 3 := p3], 4, 0)
    case 6 =>
      Stage(0, [3, 2], [], [1],
            map[0 := P(Running, NULL, [1, 2, 3], CALL_PREEMPT, 0, 2), 1 := P(Zombie, 0, [], CALL_EXIT, 0, 3),
            2 := P(Ready, 0, [], CALL_PREEMPT, 0, 0), 3 := p3], 4, 0)
    case 7 =>
      Stage(3, [2], [0], [1],
            map[0 := P(Waiting, NULL, [1, 2, 3], CALL_WAIT, 3, 2), 1 := P(Zombie, 0, [], CALL_EXIT, 0, 3),
            2 := P(Ready, 0, [], CALL_PREEMPT, 0, 0), 3 := p3], 4, 0)
    case _ =>
      Stage(2, [], [0], [1, 3],
            map[0 := P(Waiting, NULL, [1, 2, 3], CALL_WAIT, 3, 2), 1 := P(Zombie, 0, [], CALL_EXIT, 0, 3),
            2 := P(Running, 0, [], CALL_PREEMPT, 0, 0), 3 := P(Zombie, 1, [], CALL_EXIT, 0, 0)], 4, 0)
  }

  lemma FirstSpawn(k: K)
    requires At(k, StageAt(0))
    ensures Step(k, SpawnCall).Ok? && At(Step(k, SpawnCall).value, StageAt(1))
  {
    assert [] + [1] == [1];
    assert Step(k, SpawnCall).value.procs == StageAt(1).procs;
  }

  lemma SecondSpawn(k: K)
    requires At(k, StageAt(1))
    ensures Step(k, SpawnCall).Ok? && At(Step(k, SpawnCall).value, StageAt(2))
  {
    assert [1] + [2] == [1, 2];
    assert Step(k, SpawnCall).value.procs == StageAt(2).procs;
  }

  /** The scheduler when no timer is set and somebody is ready. */
  lemma PlainSchedule(k: K)
    requires k.timers == [] && k.ready != [] && k.running in k.procs && Unlinked(k, k.running)
    requires k.ready[0] in k.procs && k.ready[0] != k.running
    ensures var r, p := k.running, k.ready[0];
            Schedule(k) == Ok(k.(running := p, ready := k.ready[1..] + [r],
                                 procs := k.procs[r := k.procs[r].(status := Ready)]
                                                 [p := k.procs[p].(status := Running)]))
  {
    assert (k.ready + [k.running])[1..] == k.ready[1..] + [k.running];
  }

  lemma ChildRuns(k: K)
    requires At(k, StageAt(2))
    ensures Step(k, PreemptCall).Ok? && At(Step(k, PreemptCall).value, StageAt(3))
  {
    hide Schedule;
    PlainSchedule(Enter(k, CALL_PREEMPT, []).value);
    assert Step(k, PreemptCall).value.procs == StageAt(3).procs;
  }

  lemma ChildSpawns(k: K)
    requires At(k, StageAt(3))
    ensures Step(k, SpawnCall).Ok? && At(Step(k, SpawnCall).value, StageAt(4))
  {
    assert [] + [3] == [3] && [2, 0] + [3] == [2, 0, 3];
    assert Step(k, SpawnCall).value.procs == StageAt(4).procs;
  }

  lemma ChildExits(k: K)
    requires At(k, StageAt(4))
    ensures Step(k, ExitCall(0)).Ok? && At(Step(k, ExitCall(0)).value, StageAt(5))
  {
    hide Leave;
    var k1 := Valued(Enter(k, CALL_EXIT, [0]).value);
    assert [1, 2] + [3] == [1, 2, 3];
    ChildLeaves(Reparent(k1).value);
  }

  lemma ChildLeaves(k: K)
    requires k.procs == map[0 := P(Ready, NULL, [1, 2, 3], CALL_PREEMPT, 0, 2), 1 := P(Running, 0, [], CALL_EXIT, 0, 3),
                            2 := P(Ready, 0, [], 0, 0, 0), 3 := P(Ready, 1, [], 0, 0, 0)]
    requires At(k, StageAt(4).(procs := k.procs))
    ensures Leave(k).Ok? && At(Leave(k).value, StageAt(5))
  {
    hide Bury;
    assert Leave(k).value.procs == StageAt(5).procs;
  }

  lemma InitRuns(k: K)
    requires At(k, StageAt(5))
    ensures Step(k, PreemptCall).Ok? && At(Step(k, PreemptCall).value, StageAt(6))
  {
    hide Schedule;
    PlainSchedule(Enter(k, CALL_PREEMPT, []).value);
    assert Step(k, PreemptCall).value.procs == StageAt(6).procs;
  }

  lemma InitWaits(k: K)
    requires At(k, StageAt(6))
    ensures Step(k, WaitCall(3)).Ok? && At(Step(k, WaitCall(3)).value, StageAt(7))
  {
    hide ScanChildren, Reap;
    var k0 := Enter(k, CALL_WAIT, [3, 0]).value;
    ScansTo(k0, [1, 2], 3);
    assert [1, 2] + [3] == [1, 2, 3];
    assert Step(k, WaitCall(3)).value.procs == StageAt(7).procs;
  }

  /** The scan passes over other children to the one it looks for. */
  lemma {:induction false} ScansTo(k: K, cs: seq<Pid>, pid: Pid)
    requires pid != 0 && pid in k.procs && pid !in cs && forall i :: 0 <= i < |cs| ==> cs[i] in k.procs
    ensures forall i :: 0 <= i < |cs| + 1 ==> (cs + [pid])[i] in k.procs
    ensures ScanChildren(k, cs + [pid], pid) == pid
  {
    if cs != [] {
      ScansTo(k, cs[1..], pid);
      assert (cs + [pid])[1..] == cs[1..] + [pid];
    }
  }

  lemma GrandChildExits(k: K)
    requires At(k, StageAt(7))
    ensures Step(k, ExitCall(0)).Ok? && At(Step(k, ExitCall(0)).value, StageAt(8))
  {
    hide Bury;
    assert Step(k, ExitCall(0)).value.procs == StageAt(8).procs;
  }

  /** The first `n` steps of one run: two spawns by init, a spawn and an exit by the first child, a wait by init for
      the grandchild and its exit. */
  function FamilyRun(n: nat): seq<Event>
    requires n <= 8
  {
    [SpawnCall, SpawnCall, PreemptCall, SpawnCall, ExitCall(0), PreemptCall, WaitCall(3), ExitCall(0)][..n]
  }

  lemma Extends(n: nat, k: K)
    requires n < 8 && After(Boot(), FamilyRun(n)) == Ok(k)
    ensures After(Boot(), FamilyRun(n + 1)) == Step(k, FamilyRun(n + 1)[n])
  {
    hide Step;
    assert FamilyRun(n + 1)[..n] == FamilyRun(n);
  }

  lemma FamilyStages(n: nat) returns (k: K)
    requires n <= 8
    ensures After(Boot(), FamilyRun(n)) == Ok(k) && At(k, StageAt(n))
  {
    hide Step, At, StageAt;
    if n == 0 {
      k := Boot();
      BootStage();
    } else {
      var k0 := FamilyStages(n - 1);
      Extends(n - 1, k0);
      match n {
        case 1 => FirstSpawn(k0);
        case 2 => SecondSpawn(k0);
        case 3 => ChildRuns(k0);
        case 4 => ChildSpawns(k0);
        case 5 => ChildExits(k0);
        case 6 => InitRuns(k0);
        case 7 => InitWaits(k0);
        case 8 => GrandChildExits(k0);
      }
      k := Step(k0, FamilyRun(n)[n - 1]).value;
    }
  }

  lemma BootStage()
    ensures At(Boot(), StageAt(0))
  {
  }

  /** Process 1 spawns process 3 and exits: init's list holds process 3, whose parent is still the dead process 1. */
  lemma OrphanExample()
    ensures var r := After(Boot(), [SpawnCall, SpawnCall, PreemptCall, SpawnCall, ExitCall(0)]);
            && r.Ok? && INIT in r.value.procs && 3 in r.value.procs && 1 in r.value.zombies
            && 3 in r.value.procs[INIT].children && r.value.procs[3].parent == 1
  {
    var k := FamilyStages(5);
    assert FamilyRun(5) == [SpawnCall, SpawnCall, PreemptCall, SpawnCall, ExitCall(0)];
  }

  /** Process 1 leaves its child, process 3, to init and exits; init waits for process 3; process 3 exits. It is a
      zombie in init's list, and init goes on waiting for it. */
  lemma LostWakeUpExample()
    ensures var r := After(Boot(), [SpawnCall, SpawnCall, PreemptCall, SpawnCall, ExitCall(0),
                                    PreemptCall, WaitCall(3), ExitCall(0)]);
            && r.Ok? && INIT in r.value.procs && 3 in r.value.procs
            && INIT in r.value.waiting && r.value.procs[INIT].call == CALL_WAIT && r.value.procs[INIT].arg0 == 3
            && 3 in r.value.procs[INIT].children && 3 in r.value.zombies && r.value.procs[3].status == Zombie
  {
    var k := FamilyStages(8);
    assert FamilyRun(8) == [SpawnCall, SpawnCall, PreemptCall, SpawnCall, ExitCall(0),
                            PreemptCall, WaitCall(3), ExitCall(0)];
  }

  /** Init spawns process 1 and waits for process 7: no error, init sleeps, for ever. */
  lemma StrangerExample()
    ensures var r := After(Boot(), [SpawnCall, WaitCall(7)]);
            r.Ok? && r.value.running == 1 && AwaitsStranger(r.value, INIT)
  {
    hide Schedule, Reap, Spawn;
    var k := FamilyStages(1);
    assert FamilyRun(1) == [SpawnCall] && [SpawnCall, WaitCall(7)][..1] == [SpawnCall];
    assert ScanChildren(Enter(k, CALL_WAIT, [7, 0]).value, [1], 7) == 1;
  }

  /** Init spawns process 1 and waits for it: process 1 runs, and is marked ready. */
  lemma UnmarkedExample()
    ensures var r := After(Boot(), [SpawnCall, WaitCall(0)]);
            r.Ok? && r.value.running == 1 && 1 in r.value.procs && r.value.procs[1].status == Ready
  {
    hide Schedule, Reap, Spawn;
    var k := FamilyStages(1);
    assert FamilyRun(1) == [SpawnCall] && [SpawnCall, WaitCall(0)][..1] == [SpawnCall];
    assert ScanChildren(Enter(k, CALL_WAIT, [0, 0]).value, [1], 0) == 1;
  }

  // ---- an exit with a semaphore open

  lemma {:induction false} AfterAppend(k: K, es: seq<Event>, e: Event)
    ensures After(k, es + [e]) == match After(k, es) { case Ok(k1) => Step(k1, e) case Fault => Fault }
  {
    hide Step;
    assert (es + [e])[..|es|] == es;
  }

  lemma StepQuiet(k: K, e: Event)
    requires Inv(k) && k.running in k.procs && (e.SemOpenCall? || e.SemCloseCall?)
    ensures Step(k, e).Ok? && Follows(k, e, Step(k, e).value) && Inv(Step(k, e).value)
    ensures Step(k, e).value.ready == k.ready && Step(k, e).value.running == k.running
    ensures Step(k, e).value.running in Step(k, e).value.procs
  {
    hide Inv, Step;
    StepKeeps(k, e);
    StepEffect(k, e);
  }

  lemma {:induction false} AfterInv(es: seq<Event>)
    requires After(Boot(), es).Ok? && forall e :: e in es ==> !e.ExitCall?
    ensures Inv(After(Boot(), es).value)
  {
    hide Step, Inv;
    if es == [] {
      BootInv();
    } else {
      AfterInv(es[..|es| - 1]);
      var k := After(Boot(), es[..|es| - 1]).value;
      StepRuns(k, es[|es| - 1]);
      StepKeeps(k, es[|es| - 1]);
    }
  }

  lemma StepRuns(k: K, e: Event)
    requires Step(k, e).Ok?
    ensures k.running in k.procs
  {
    hide Schedule, Spawn, Exit, Wait, Sleep, SemOpen, SemClose, SemWait, SemPost;
  }

  lemma OpenDescKin(k: K, s: Ref)
    requires k.running in k.procs && OpenDesc(k, s).Ok?
    ensures SameKin(k, OpenDesc(k, s).value)
  {
  }

  ghost predicate SameKin(k: K, r: K) {
    && r.procs.Keys == k.procs.Keys && r.zombies == k.zombies
    && forall p :: p in k.procs ==>
         && r.procs[p].children == k.procs[p].children && r.procs[p].parent == k.procs[p].parent
         && r.procs[p].status == k.procs[p].status
  }

  lemma OpenKin(k: K, id: int, count: int)
    requires Step(k, SemOpenCall(id, count)).Ok?
    ensures SameKin(k, Step(k, SemOpenCall(id, count)).value)
  {
    hide OpenDesc;
    StepRuns(k, SemOpenCall(id, count));
    var k0 := Enter(k, CALL_SEMOPEN, [id, count]).value;
    if count >= 0 && id >= 0 && AllIn(k.semList, k.sems) {
      match ById(k.sems, k.semList, id)
      case Some(s) => OpenDescKin(k0, s);
      case None => if k.freeSems != [] { OpenDescKin(AllocSem(k0, id, count), k.nextRef); }
    }
  }

  lemma ExitOpen(k: K)
    requires Inv(k) && k.running == 1 && 1 in k.procs && k.ready != [] && INIT in k.procs
    requires k.procs[1].parent == INIT && k.procs[INIT].status == Ready
    requires k.procs[1].children == [] && k.procs[1].semDescs != []
    ensures var r := Step(k, ExitCall(0));
            && r.Ok? && !Inv(r.value)
            && 1 in r.value.procs && 1 in r.value.zombies && r.value.procs[1].semDescs != []
  {
    hide Inv;
    ExitFaults(k, 0);
    ExitExact(k, 0);
  }

  /** Process 1 opens a semaphore and exits: a zombie is left with a descriptor that nobody will close. */
  lemma OpenExitExample()
    ensures var r := After(Boot(), [SpawnCall, SpawnCall, PreemptCall, SemOpenCall(5, 0), ExitCall(0)]);
            && r.Ok? && !Inv(r.value)
            && 1 in r.value.procs && 1 in r.value.zombies && r.value.procs[1].semDescs != []
  {
    hide Step, Inv;
    var k2 := FamilyStages(3);
    var es := FamilyRun(3);
    AfterInv(es);
    StepQuiet(k2, SemOpenCall(5, 0));
    var k3 := Step(k2, SemOpenCall(5, 0)).value;
    AfterAppend(Boot(), es, SemOpenCall(5, 0));
    AfterAppend(Boot(), es + [SemOpenCall(5, 0)], ExitCall(0));
    assert es + [SemOpenCall(5, 0)] + [ExitCall(0)] ==
           [SpawnCall, SpawnCall, PreemptCall, SemOpenCall(5, 0), ExitCall(0)];
    assert CanOpenSem(k2, 5, 0);
    OpenResult(k2, 5, 0, k3);
    OpenKin(k2, 5, 0);
    ExitOpen(k3);
  }

  // ---- a semaphore that nobody refers to

  function Opens(n: nat): seq<Event> { seq(n, _ => SemOpenCall(0, 0)) }

  /** Init has opened the semaphore with id 0 `n` times and done nothing else. */
  ghost predicate OnlyZero(k: K, n: nat) {
    && Inv(k) && k.running == INIT && INIT in k.procs
    && k.freeDescs == MAX_NUM_PROCESSES - n && |k.freeSems| == MAX_NUM_SEMAPHORES - (if n == 0 then 0 else 1)
    && Unused(k, 1)
    && (n > 0 ==> !Unused(k, 0) && exists s :: HasOpen(k, INIT, 0, s) && s in k.sems && k.sems[s].id == 0)
    && (n == 0 ==> k.procs[INIT].lastSemFd == 0)
  }

  lemma {:induction false} ManyOpens(n: nat) returns (k: K)
    requires n <= MAX_NUM_PROCESSES
    ensures After(Boot(), Opens(n)) == Ok(k) && OnlyZero(k, n)
  {
    hide Inv, Step;
    if n == 0 {
      k := Boot();
      BootInv();
    } else {
      var k0 := ManyOpens(n - 1);
      assert Opens(n - 1) + [SemOpenCall(0, 0)] == Opens(n);
      AfterAppend(Boot(), Opens(n - 1), SemOpenCall(0, 0));
      StepQuiet(k0, SemOpenCall(0, 0));
      k := Step(k0, SemOpenCall(0, 0)).value;
      OpensZero(k0, n - 1, k);
    }
  }

  lemma OpensZero(k0: K, n: nat, k: K)
    requires n < MAX_NUM_PROCESSES && OnlyZero(k0, n) && Follows(k0, SemOpenCall(0, 0), k)
    ensures OnlyZero(k, n + 1)
  {
    hide Inv, Step, HasOpen, Follows;
    var e := SemOpenCall(0, 0);
    StepInv(k0, e, k);
    if n == 0 { ZeroUnused(k0); }
    assert CanOpenSem(k0, 0, 0);
    OpenResult(k0, 0, 0, k);
    OpenPools(k0, 0, 0, k);
    UnusedStays(k0, e, k, 1);
    if n == 0 {
    } else {
      var s :| HasOpen(k0, INIT, 0, s) && s in k0.sems && k0.sems[s].id == 0;
      StepTables(k0, e, k, INIT, 0, s);
      OpenExists(k, INIT, 0, s);
      StepIds(k0, e, k);
    }
  }

  /** Init, alone, opens a semaphore without permits and waits on it: the head of an empty ready queue is detached. */
  lemma FaultExample()
    ensures After(Boot(), [SemOpenCall(0, 0), SemWaitCall(0)]) == Fault
  {
    hide Inv, Step, HasOpen, NoPermit;
    BootInv();
    StepQuiet(Boot(), SemOpenCall(0, 0));
    var k := Step(Boot(), SemOpenCall(0, 0)).value;
    AfterAppend(Boot(), [], SemOpenCall(0, 0));
    AfterAppend(Boot(), [SemOpenCall(0, 0)], SemWaitCall(0));
    assert [] + [SemOpenCall(0, 0)] == [SemOpenCall(0, 0)];
    assert [SemOpenCall(0, 0)] + [SemWaitCall(0)] == [SemOpenCall(0, 0), SemWaitCall(0)];
    NothingToTake(k);
    StepKeeps(k, SemWaitCall(0));
  }

  lemma NothingToTake(k: K)
    requires Follows(Boot(), SemOpenCall(0, 0), k)
    ensures Inv(k) && k.running in k.procs && NoPermit(k, 0)
  {
    hide Inv, Step, HasOpen;
    BootInv();
    StepInv(Boot(), SemOpenCall(0, 0), k);
    assert OnlyZero(Boot(), 0);
    OpensZero(Boot(), 0, k);
    var s :| HasOpen(k, INIT, 0, s) && s in k.sems && k.sems[s].id == 0;
    OpenCount(Boot(), 0, 0, k, s);
    HasOpenNames(k, 0, s);
  }

  /** All semaphore blocks are free, so there is no semaphore. */
  lemma ZeroUnused(k: K)
    requires Inv(k) && |k.freeSems| == MAX_NUM_SEMAPHORES
    ensures Unused(k, 0)
  {
    hide SchedInv, ReasonInv, TimerInv, DescInv, FamilyInv;
    assert k.sems.Keys == {};
  }

  /** With all descriptors taken, an open of id 1 fails and leaves its semaphore behind. Once a descriptor is free
      again, an open and a close of id 1 do not restore what was there: they free that semaphore. */
  lemma LeftoverExample() returns (k1: K, k2: K, k3: K, k4: K)
    ensures After(Boot(), Opens(MAX_NUM_PROCESSES) + [SemOpenCall(1, 0)]) == Ok(k1)
    ensures k1.running in k1.procs && k1.procs[k1.running].ret == DSOS_ESEMOPEN && !Held(k1, 1)
    ensures Follows(k1, SemCloseCall(0), k2) && Follows(k2, SemOpenCall(1, 0), k3)
    ensures k3.running in k3.procs && k3.procs[k3.running].ret >= 0
    ensures Follows(k3, SemCloseCall(k3.procs[k3.running].ret), k4) && !SemsAs(k2, k4)
  {
    hide Inv, Step, HasOpen, Follows, SemsAs;
    var k0 := ManyOpens(MAX_NUM_PROCESSES);
    AfterAppend(Boot(), Opens(MAX_NUM_PROCESSES), SemOpenCall(1, 0));
    StepQuiet(k0, SemOpenCall(1, 0));
    k1 := Step(k0, SemOpenCall(1, 0)).value;
    LeftBehind(k0, k1);
    StepQuiet(k1, SemCloseCall(0));
    k2 := Step(k1, SemCloseCall(0)).value;
    StillLeft(k1, k2);
    StepQuiet(k2, SemOpenCall(1, 0));
    k3 := Step(k2, SemOpenCall(1, 0)).value;
    OpenResult(k2, 1, 0, k3);
    var fd := k3.procs[k3.running].ret;
    StepQuiet(k3, SemCloseCall(fd));
    k4 := Step(k3, SemCloseCall(fd)).value;
    CloseUndoesOpen(k2, 1, 0, k3, k4);
  }

  lemma LeftBehind(k0: K, k1: K)
    requires OnlyZero(k0, MAX_NUM_PROCESSES) && Follows(k0, SemOpenCall(1, 0), k1)
    ensures k1.running == INIT && INIT in k1.procs && k1.procs[INIT].ret == DSOS_ESEMOPEN && Inv(k1) && !Held(k1, 1)
    ensures !Unused(k1, 1) && k1.freeDescs >= 0
    ensures exists s :: HasOpen(k1, INIT, 0, s) && s in k1.sems && k1.sems[s].id == 0
  {
    hide Inv, Step, HasOpen, Follows;
    var e := SemOpenCall(1, 0);
    StepInv(k0, e, k1);
    FollowsStep(k0, e, k1);
    OpenResult(k0, 1, 0, k1);
    assert k0.freeSems != [];
    FreshRef(k0);
    SemBorn(k0, e, k0.nextRef);
    var s :| HasOpen(k0, INIT, 0, s) && s in k0.sems && k0.sems[s].id == 0;
    StepTables(k0, e, k1, INIT, 0, s);
    OpenExists(k1, INIT, 0, s);
    StepIds(k0, e, k1);
    OpenPools(k0, 1, 0, k1);
  }

  lemma StillLeft(k1: K, k2: K)
    requires Inv(k1) && k1.running == INIT && !Held(k1, 1) && k1.freeDescs >= 0
    requires exists s :: HasOpen(k1, INIT, 0, s) && s in k1.sems && k1.sems[s].id == 0
    requires Follows(k1, SemCloseCall(0), k2)
    ensures Inv(k2) && !Held(k2, 1) && CanOpenSem(k2, 1, 0)
  {
    hide Inv, Step, HasOpen, Follows;
    FollowsStep(k1, SemCloseCall(0), k2);
    StepInv(k1, SemCloseCall(0), k2);
    var s :| HasOpen(k1, INIT, 0, s) && s in k1.sems && k1.sems[s].id == 0;
    assert IsOpen(k1, INIT, 0);
    ClosePools(k1, 0, k2);
    HasOpenNames(k1, 0, s);
    var t :| t in k1.sems && k1.sems[t].id == 1 && k1.sems[t].descs == [] && k1.sems[t].waitingDescs == [];
    assert !Names(k1, 0, t);
    assert k2.sems[t] == k1.sems[t];
  }
}
