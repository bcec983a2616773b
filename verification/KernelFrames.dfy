/** What a step leaves alone: the clock, and everything about processes that the step is not about. */
module KernelFrames {
  import opened Seqs
  import opened KernelState
  import opened KernelInvariant
  import opened KernelMoves
  import opened KernelSteps
  import opened KernelRuns
  import opened KernelPlaces

  /** `c` but for where the process is and what its last call returned. */
  function Moved(c: Proc, c1: Proc): Proc { c.(status := c1.status, hasTimer := c1.hasTimer, ret := c1.ret) }

  /** Process `p` may have gone from one list to another, and may have been given a return value. */
  ghost predicate Kept(k: K, k1: K, p: Pid) {
    p in k.procs && p in k1.procs && k1.procs[p] == Moved(k.procs[p], k1.procs[p])
  }

  ghost predicate KeptRet(k: K, k1: K, p: Pid) { Kept(k, k1, p) && k1.procs[p].ret == k.procs[p].ret }

  /** Clock and process table. */
  ghost predicate SameTable(k: K, k1: K) {
    k1.now == k.now && k1.lastPid == k.lastPid && k1.procs.Keys == k.procs.Keys
  }

  // ---- handler by handler

  lemma WakeFrame(k: K, at: nat, p: Pid)
    requires WakeElapsed(k, at).Ok? && p in k.procs
    ensures var r := WakeElapsed(k, at).value; SameTable(k, r) && KeptRet(k, r, p)
    decreases |k.timers|
  {
    if Elapsed(k) && WakeFirst(k, at).Ok? { WakeFrame(WakeFirst(k, at).value, at + 1, p); }
  }

  lemma ScheduleFrame(k: K, p: Pid)
    requires Schedule(k).Ok? && p in k.procs
    ensures var r := Schedule(k).value; SameTable(k, r) && KeptRet(k, r, p)
  {
    hide WakeElapsed;
    WakeFrame(k, 0, p);
  }

  lemma SleepFrame(k: K, p: Pid)
    requires Sleep(k).Ok? && p in k.procs && k.running in k.procs && !k.procs[k.running].hasTimer && k.freeTimers > 0
    ensures var r := Sleep(k).value; SameTable(k, r) && KeptRet(k, r, p)
  {
  }

  lemma SpawnFrame(k: K, p: Pid)
    requires Spawn(k).Ok? && p in k.procs && p != k.lastPid
    ensures var r := Spawn(k).value;
            && r.now == k.now && r.running == k.running && p in r.procs
            && r.procs.Keys == k.procs.Keys + {k.lastPid} && r.lastPid == k.lastPid + 1
            && (p != k.running ==> r.procs[p] == k.procs[p])
            && (p == k.running ==>
                  r.procs[p] == k.procs[p].(children := k.procs[p].children + [k.lastPid], ret := k.lastPid))
  {
  }

  lemma SemWaitFrame(k: K, p: Pid)
    requires Inv(k) && k.running in k.procs && SemWait(k).Ok? && p in k.procs
    ensures var r := SemWait(k).value; SameTable(k, r) && Kept(k, r, p) && (p != r.running ==> KeptRet(k, r, p))
  {
    hide Inv, SemWait, Lookup;
    FindsDescriptor(k);
    match Lookup(k, k.procs[k.running].arg0).value
    case None => SemWaitMissing(k);
    case Some(d) => SemWaitShape(k, d);
  }

  lemma SemPostFrame(k: K, p: Pid)
    requires Inv(k) && k.running in k.procs && SemPost(k).Ok? && p in k.procs
    ensures var r := SemPost(k).value; SameTable(k, r) && Kept(k, r, p) && (p != r.running ==> KeptRet(k, r, p))
  {
    hide Inv, SemPost, Lookup;
    FindsDescriptor(k);
    match Lookup(k, k.procs[k.running].arg0).value
    case None => SemPostMissing(k);
    case Some(d) => SemPostShape(k, d);
  }

  /** Open and close also change the caller's table of numbers, and nothing else about it. */
  ghost predicate KeptButTable(k: K, r: K, p: Pid) {
    && SameTable(k, r) && r.running == k.running && p in k.procs && p in r.procs
    && (p != k.running ==> r.procs[p] == k.procs[p])
    && r.procs[p] == k.procs[p].(semDescs := r.procs[p].semDescs, lastSemFd := r.procs[p].lastSemFd,
                                 ret := r.procs[p].ret)
  }

  lemma OpenDescFrame(k: K, s: Ref, p: Pid)
    requires k.running in k.procs && OpenDesc(k, s).Ok? && p in k.procs
    ensures KeptButTable(k, OpenDesc(k, s).value, p)
    ensures OpenDesc(k, s).value.procs[k.running].lastSemFd ==
            k.procs[k.running].lastSemFd + (if k.freeDescs > 0 then 1 else 0)
  {
  }

  lemma SemOpenFrame(k: K, p: Pid)
    requires SemOpen(k).Ok? && p in k.procs
    ensures KeptButTable(k, SemOpen(k).value, p)
  {
    hide OpenDesc;
    var me := k.procs[k.running];
    if me.arg1 >= 0 && me.arg0 >= 0 {
      match ById(k.sems, k.semList, me.arg0)
      case Some(s) => OpenDescFrame(k, s, p);
      case None => if k.freeSems != [] { OpenDescFrame(AllocSem(k, me.arg0, me.arg1), k.nextRef, p); }
    }
  }

  lemma SemCloseFrame(k: K, p: Pid)
    requires Inv(k) && k.running in k.procs && SemClose(k).Ok? && p in k.procs
    ensures KeptButTable(k, SemClose(k).value, p)
    ensures p in SemClose(k).value.procs && SemClose(k).value.procs[p].lastSemFd == k.procs[p].lastSemFd
  {
    hide Inv, SemClose, Lookup, AfterClose;
    FindsDescriptor(k);
    match Lookup(k, k.procs[k.running].arg0).value
    case None => SemCloseMissing(k);
    case Some(d) =>
      CloseShape(k, d);
      AfterCloseFrame(k, d, p);
  }

  lemma AfterCloseFrame(k: K, d: Ref, p: Pid)
    requires k.running in k.procs && d in k.descs && k.descs[d].sem in k.sems && p in k.procs
    ensures KeptButTable(k, AfterClose(k, d), p) && AfterClose(k, d).procs[p].lastSemFd == k.procs[p].lastSemFd
  {
  }

  lemma WaitFrame(k: K, p: Pid)
    requires Inv(k) && k.running in k.procs && k.procs[k.running].call == CALL_WAIT && Wait(k).Ok? && p in k.procs
    ensures var r := Wait(k).value;
            && r.now == k.now && r.lastPid == k.lastPid && r.procs.Keys <= k.procs.Keys && k.running in r.procs
            && (p in r.procs && p != k.running ==> KeptRet(k, r, p))
            && (p == k.running ==>
                  && Kept(k, Put(r, p, r.procs[p].(children := k.procs[p].children)), p)
                  && (r.procs[p].ret != k.procs[p].ret ==> r.running == p))
  {
    hide Inv, Wait, ScanChildren;
    WaitShape(k);
  }

  lemma LeaveFrame(k: K, p: Pid)
    requires k.running in k.procs && Leave(k).Ok? && p in k.procs
    requires k.procs[k.running].parent in k.procs && k.procs[k.running].parent != k.running
    ensures var r, parent := Leave(k).value, k.procs[k.running].parent;
            && r.now == k.now && r.lastPid == k.lastPid && r.procs.Keys <= k.procs.Keys
            && if !ParentAwaits(k, k.running) then
                 r.procs.Keys == k.procs.Keys && k.running in r.zombies && KeptRet(k, r, p)
               else
                 && r.running == parent && k.running !in r.procs && r.procs.Keys == k.procs.Keys - {k.running}
                 && r.procs[parent] == k.procs[parent].(status := Running, ret := k.running,
                                                        children := Without(k.procs[parent].children, k.running))
                 && (p != parent && p != k.running ==> r.procs[p] == k.procs[p])
  {
    hide DropTimers;
  }

  // ---- step by step

  /** The clock as the scheduler sees it in this step; other steps do not look at timers. */
  predicate Scheduling(e: Event) { e == TickEvent || e == PreemptCall }

  function ClockAt(k: K, e: Event): int { if e == TickEvent then k.now + 1 else k.now }

  lemma CleanLeave(k: K, v: int)
    requires Inv(k) && CleanExit(k)
    ensures var k0 := Valued(Enter(k, CALL_EXIT, [v]).value);
            && Step(k, ExitCall(v)) == Leave(k0) && k0.procs[k.running].parent in k0.procs
            && k0.procs[k.running].parent != k.running
            && (ParentAwaits(k0, k.running) <==> HandsBack(k, ExitCall(v)))
  {
    hide SchedInv, ReasonInv, TimerInv, DescInv, FamilyInv, PoolInv, Leave;
    ParentFacts(k);
  }

  lemma EnteredClock(k: K, e: Event)
    requires Inv(k) && k.running in k.procs && Step(k, e).Ok?
    requires e.SemWaitCall? || e.SemPostCall? || e.SemOpenCall? || e.SemCloseCall?
    ensures SameTable(k, Step(k, e).value)
  {
    hide Inv, SemWait, SemPost, SemOpen, SemClose;
    match e
    case SemOpenCall(id, c) => SemOpenFrame(Enter(k, CALL_SEMOPEN, [id, c]).value, k.running);
    case SemCloseCall(fd) =>
      EnterKeeps(k, CALL_SEMCLOSE, [fd]);
      SemCloseFrame(Enter(k, CALL_SEMCLOSE, [fd]).value, k.running);
    case SemWaitCall(fd) =>
      EnterKeeps(k, CALL_SEMWAIT, [fd]);
      SemWaitFrame(Enter(k, CALL_SEMWAIT, [fd]).value, k.running);
    case SemPostCall(fd) =>
      EnterKeeps(k, CALL_SEMPOST, [fd]);
      SemPostFrame(Enter(k, CALL_SEMPOST, [fd]).value, k.running);
  }

  lemma AwakeCaller(k: K)
    requires TimerInv(k) && PoolInv(k) && SchedInv(k) && k.running in k.procs
    ensures !k.procs[k.running].hasTimer && k.freeTimers > 0
  {
    TimerFree(k);
    NoTimerYet(k);
  }

  /** The clock advances by one at a tick and at nothing else, a spawn uses up a pid, and no process appears but the
      one that a spawn creates. */
  lemma ClockStep(k: K, e: Event, k1: K)
    requires Inv(k) && Follows(k, e, k1)
    ensures k1.now == ClockAt(k, e)
    ensures k1.lastPid == k.lastPid + One(e == SpawnCall)
    ensures if e == SpawnCall then k1.procs.Keys == k.procs.Keys + {k.lastPid} else k1.procs.Keys <= k.procs.Keys
  {
    hide Inv, Schedule, Spawn, Exit, Leave, Wait, Sleep, SemWait, SemPost, SemOpen, SemClose;
    match e
    case TickEvent => ScheduleFrame(k.(now := k.now + 1), k.running);
    case PreemptCall => ScheduleFrame(Enter(k, CALL_PREEMPT, []).value, k.running);
    case ExitCall(v) => ExitClock(k, v);
    case SpawnCall => FamilyClock(k, e);
    case WaitCall(p) => FamilyClock(k, e);
    case SleepCall(n) => FamilyClock(k, e);
    case _ => EnteredClock(k, e);
  }

  lemma FamilyClock(k: K, e: Event)
    requires Inv(k) && k.running in k.procs && (e == SpawnCall || e.WaitCall? || e.SleepCall?) && Step(k, e).Ok?
    ensures var k1 := Step(k, e).value;
            && k1.now == k.now && k1.lastPid == k.lastPid + One(e == SpawnCall)
            && if e == SpawnCall then k1.procs.Keys == k.procs.Keys + {k.lastPid} else k1.procs.Keys <= k.procs.Keys
  {
    hide Inv, SchedInv, PoolInv, TimerInv, Spawn, Wait, Sleep;
    InvParts(k);
    match e
    case SpawnCall =>
      NewPid(k);
      SpawnFrame(Enter(k, CALL_SPAWN, [0, 0]).value, k.running);
    case WaitCall(p) =>
      EnterKeeps(k, CALL_WAIT, [p, 0]);
      WaitFrame(Enter(k, CALL_WAIT, [p, 0]).value, k.running);
    case SleepCall(n) =>
      AwakeCaller(k);
      SleepFrame(Enter(k, CALL_SLEEP, [n]).value, k.running);
  }

  lemma ExitClock(k: K, v: int)
    requires Inv(k) && CleanExit(k) && Step(k, ExitCall(v)).Ok?
    ensures var k1 := Step(k, ExitCall(v)).value;
            && k1.now == k.now && k1.lastPid == k.lastPid && k1.procs.Keys <= k.procs.Keys
            && (k.running in k1.procs ==> k.running in k1.zombies)
  {
    hide Inv, Leave, ParentAwaits;
    CleanLeave(k, v);
    LeaveFrame(Valued(Enter(k, CALL_EXIT, [v]).value), k.running);
  }

  lemma NewPid(k: K)
    requires SchedInv(k)
    ensures k.lastPid !in k.procs
  {
  }

  lemma EnteredBystander(k: K, e: Event, p: Pid)
    requires Inv(k) && k.running in k.procs && Step(k, e).Ok? && p in k.procs && p != k.running
    requires e.SemWaitCall? || e.SemPostCall? || e.SemOpenCall? || e.SemCloseCall?
    ensures var k1 := Step(k, e).value;
            && Kept(k, k1, p)
            && (k1.procs[p].ret != k.procs[p].ret ==> p == k1.running && (e.SemWaitCall? || e.SemPostCall?))
  {
    hide Inv, SemWait, SemPost, SemOpen, SemClose;
    match e
    case SemOpenCall(id, c) => SemOpenFrame(Enter(k, CALL_SEMOPEN, [id, c]).value, p);
    case SemCloseCall(fd) =>
      EnterKeeps(k, CALL_SEMCLOSE, [fd]);
      SemCloseFrame(Enter(k, CALL_SEMCLOSE, [fd]).value, p);
    case SemWaitCall(fd) =>
      EnterKeeps(k, CALL_SEMWAIT, [fd]);
      SemWaitFrame(Enter(k, CALL_SEMWAIT, [fd]).value, p);
    case SemPostCall(fd) =>
      EnterKeeps(k, CALL_SEMPOST, [fd]);
      SemPostFrame(Enter(k, CALL_SEMPOST, [fd]).value, p);
  }

  /** A step touches nobody but its caller and, if it is a wait or post, the return value of whoever runs next; or, if
      it is the exit of an awaited child, the parent, which then runs with the child's pid. */
  lemma BystanderStep(k: K, e: Event, k1: K, p: Pid)
    requires Inv(k) && Follows(k, e, k1) && p in k.procs && p in k1.procs && p != k.running
    ensures if HandsBack(k, e) && p == k.procs[k.running].parent then
              && k1.running == p && k.running !in k1.procs
              && k1.procs[p] == k.procs[p].(status := Running, ret := k.running,
                                            children := Without(k.procs[p].children, k.running))
            else
              && Kept(k, k1, p)
              && (k1.procs[p].ret != k.procs[p].ret ==> p == k1.running && (e.SemWaitCall? || e.SemPostCall?))
  {
    hide Inv, Schedule, Spawn, Exit, Leave, Wait, Sleep, SemWait, SemPost, SemOpen, SemClose, ParentAwaits, Valued;
    match e
    case TickEvent => ScheduleFrame(k.(now := k.now + 1), p);
    case PreemptCall => ScheduleFrame(Enter(k, CALL_PREEMPT, []).value, p);
    case ExitCall(v) => ExitBystander(k, v, p);
    case SpawnCall => FamilyBystander(k, e, p);
    case WaitCall(c) => FamilyBystander(k, e, p);
    case SleepCall(n) => FamilyBystander(k, e, p);
    case _ => EnteredBystander(k, e, p);
  }

  lemma FamilyBystander(k: K, e: Event, p: Pid)
    requires Inv(k) && k.running in k.procs && (e == SpawnCall || e.WaitCall? || e.SleepCall?) && Step(k, e).Ok?
    requires p in k.procs && p in Step(k, e).value.procs && p != k.running
    ensures KeptRet(k, Step(k, e).value, p)
  {
    hide Inv, SchedInv, PoolInv, TimerInv, Spawn, Wait, Sleep;
    InvParts(k);
    match e
    case SpawnCall =>
      NewPid(k);
      SpawnFrame(Enter(k, CALL_SPAWN, [0, 0]).value, p);
    case WaitCall(c) =>
      EnterKeeps(k, CALL_WAIT, [c, 0]);
      WaitFrame(Enter(k, CALL_WAIT, [c, 0]).value, p);
    case SleepCall(n) =>
      AwakeCaller(k);
      SleepFrame(Enter(k, CALL_SLEEP, [n]).value, p);
  }

  lemma ExitBystander(k: K, v: int, p: Pid)
    requires Inv(k) && CleanExit(k) && Step(k, ExitCall(v)).Ok?
    requires p in k.procs && p in Step(k, ExitCall(v)).value.procs && p != k.running
    ensures var k1 := Step(k, ExitCall(v)).value;
            if HandsBack(k, ExitCall(v)) && p == k.procs[k.running].parent then
              && k1.running == p && k.running !in k1.procs
              && k1.procs[p] == k.procs[p].(status := Running, ret := k.running,
                                            children := Without(k.procs[p].children, k.running))
            else KeptRet(k, k1, p)
  {
    hide Inv, Leave, ParentAwaits;
    CleanLeave(k, v);
    LeaveFrame(Valued(Enter(k, CALL_EXIT, [v]).value), p);
  }

  /** What a step leaves of its caller: a call that is not about children, numbers or exit leaves those alone, and only
      a caller that goes on running is given a return value. */
  lemma CallerStep(k: K, e: Event, k1: K)
    requires Inv(k) && Follows(k, e, k1) && k.running in k1.procs
    ensures var c, c1 := k.procs[k.running], k1.procs[k.running];
            && c1.parent == c.parent
            && c1.exitValue == (if e.ExitCall? then e.value else c.exitValue)
            && (e == SpawnCall ==> c1.children == c.children + [k.lastPid] && c1.ret == k.lastPid)
            && (e != SpawnCall && !e.WaitCall? ==> c1.children == c.children)
            && (!e.SemOpenCall? ==> c1.lastSemFd == c.lastSemFd)
            && (!e.SemOpenCall? && !e.SemCloseCall? ==> c1.semDescs == c.semDescs)
            && (c1.ret != c.ret ==> k1.running == k.running && !Scheduling(e) && !e.SleepCall? && !e.ExitCall?)
  {
    hide Inv, Schedule, Spawn, Exit, Leave, Wait, Sleep, SemWait, SemPost, SemOpen, SemClose, ParentAwaits;
    match e
    case TickEvent => ScheduleFrame(k.(now := k.now + 1), k.running);
    case PreemptCall => ScheduleFrame(Enter(k, CALL_PREEMPT, []).value, k.running);
    case SpawnCall => FamilyCaller(k, e);
    case WaitCall(p) => FamilyCaller(k, e);
    case SleepCall(n) => FamilyCaller(k, e);
    case ExitCall(v) =>
      CleanLeave(k, v);
      LeaveFrame(Valued(Enter(k, CALL_EXIT, [v]).value), k.running);
    case _ => EnteredCaller(k, e);
  }

  lemma FamilyCaller(k: K, e: Event)
    requires Inv(k) && k.running in k.procs && (e == SpawnCall || e.WaitCall? || e.SleepCall?) && Step(k, e).Ok?
    ensures var k1 := Step(k, e).value;
            && k.running in k1.procs
            && var c, c1 := k.procs[k.running], k1.procs[k.running];
               && c1.parent == c.parent && c1.exitValue == c.exitValue
               && (e == SpawnCall ==> c1.children == c.children + [k.lastPid] && c1.ret == k.lastPid)
               && (e.SleepCall? ==> c1.children == c.children)
               && c1.lastSemFd == c.lastSemFd && c1.semDescs == c.semDescs
               && (c1.ret != c.ret ==> k1.running == k.running && !e.SleepCall?)
  {
    hide Inv, SchedInv, PoolInv, TimerInv, Spawn, Wait, Sleep;
    InvParts(k);
    match e
    case SpawnCall =>
      NewPid(k);
      SpawnFrame(Enter(k, CALL_SPAWN, [0, 0]).value, k.running);
    case WaitCall(p) =>
      EnterKeeps(k, CALL_WAIT, [p, 0]);
      WaitFrame(Enter(k, CALL_WAIT, [p, 0]).value, k.running);
    case SleepCall(n) =>
      AwakeCaller(k);
      SleepFrame(Enter(k, CALL_SLEEP, [n]).value, k.running);
  }

  lemma EnteredCaller(k: K, e: Event)
    requires Inv(k) && k.running in k.procs && Step(k, e).Ok?
    requires e.SemWaitCall? || e.SemPostCall? || e.SemOpenCall? || e.SemCloseCall?
    ensures var k1 := Step(k, e).value;
            && k.running in k1.procs
            && var c, c1 := k.procs[k.running], k1.procs[k.running];
               && c1.parent == c.parent && c1.children == c.children && c1.exitValue == c.exitValue
               && (!e.SemOpenCall? ==> c1.lastSemFd == c.lastSemFd)
               && (!e.SemOpenCall? && !e.SemCloseCall? ==> c1.semDescs == c.semDescs)
               && (c1.ret != c.ret ==> k1.running == k.running)
  {
    hide Inv, SemWait, SemPost, SemOpen, SemClose;
    match e
    case SemOpenCall(id, c) => SemOpenFrame(Enter(k, CALL_SEMOPEN, [id, c]).value, k.running);
    case SemCloseCall(fd) =>
      EnterKeeps(k, CALL_SEMCLOSE, [fd]);
      SemCloseFrame(Enter(k, CALL_SEMCLOSE, [fd]).value, k.running);
    case SemWaitCall(fd) =>
      EnterKeeps(k, CALL_SEMWAIT, [fd]);
      SemWaitFrame(Enter(k, CALL_SEMWAIT, [fd]).value, k.running);
    case SemPostCall(fd) =>
      EnterKeeps(k, CALL_SEMPOST, [fd]);
      SemPostFrame(Enter(k, CALL_SEMPOST, [fd]).value, k.running);
  }

  // ---- where the lists grow

  lemma SemWaitEnd(k: K)
    requires Inv(k) && k.running in k.procs && SemWait(k).Ok?
    ensures SemWait(k).value.waiting == k.waiting || SemWait(k).value.waiting == k.waiting + [k.running]
  {
    hide Inv, SemWait, Lookup;
    FindsDescriptor(k);
    match Lookup(k, k.procs[k.running].arg0).value
    case None => SemWaitMissing(k);
    case Some(d) => SemWaitShape(k, d);
  }

  lemma WaitEnd(k: K)
    requires Inv(k) && k.running in k.procs && k.procs[k.running].call == CALL_WAIT && Wait(k).Ok?
    ensures Wait(k).value.waiting == k.waiting || Wait(k).value.waiting == k.waiting + [k.running]
  {
    hide Inv, Wait, ScanChildren;
    WaitShape(k);
  }

  lemma LeaveEnd(k: K)
    requires k.running in k.procs && k.running !in k.zombies && Leave(k).Ok?
    ensures var r := Leave(k).value; r.zombies == k.zombies || r.zombies == k.zombies + [k.running]
  {
    hide DropTimers;
    WithoutLast(k.zombies, k.running);
  }

  /** A caller that goes to sleep joins the waiting list at its end, and one that dies the zombies at theirs; the others
      keep their places. */
  lemma ListsGrow(k: K, e: Event, k1: K)
    requires Inv(k) && Follows(k, e, k1)
    ensures e.SemWaitCall? || e.WaitCall? || e.SleepCall? ==>
              k1.waiting == if k.running in k1.waiting then k.waiting + [k.running] else k.waiting
    ensures e.ExitCall? ==>
              k1.zombies == if k.running in k1.zombies then k.zombies + [k.running] else k.zombies
  {
    hide Inv, SchedInv, PoolInv, TimerInv, Wait, SemWait, Leave, Schedule, Spawn, SemPost, SemOpen, SemClose;
    InvParts(k);
    RunningUnlinked(k);
    match e
    case SemWaitCall(fd) =>
      EnterKeeps(k, CALL_SEMWAIT, [fd]);
      SemWaitEnd(Enter(k, CALL_SEMWAIT, [fd]).value);
    case WaitCall(p) =>
      EnterKeeps(k, CALL_WAIT, [p, 0]);
      WaitEnd(Enter(k, CALL_WAIT, [p, 0]).value);
    case SleepCall(n) => AwakeCaller(k);
    case ExitCall(v) =>
      CleanLeave(k, v);
      LeaveEnd(Valued(Enter(k, CALL_EXIT, [v]).value));
    case _ =>
  }
}
