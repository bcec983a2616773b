/** Every system call and every timer tick: when it faults, exactly, and that otherwise the invariant holds again. */
module KernelSteps {
  import opened Outcomes
  import opened Seqs
  import opened KernelState
  import opened KernelInvariant
  import opened KernelMoves
  import opened KernelSemMoves
  import opened KernelFamilyMoves
  import H = HandoffSemaphore

  // ---- entry and return

  lemma EnterKeeps(k: K, call: int, args: seq<int>)
    requires Inv(k) && k.running in k.procs
    ensures Enter(k, call, args).Ok? && Inv(Enter(k, call, args).value)
  {
    hide Inv;
    Touch(k, Enter(k, call, args).value.procs[k.running]);
  }

  lemma ReturnKeeps(k: K, v: int)
    requires Inv(k) && k.running in k.procs
    ensures Return(k, v).Ok? && Inv(Return(k, v).value)
  {
    hide Inv;
    Touch(k, Return(k, v).value.procs[k.running]);
  }

  lemma MarkKeeps(k: K)
    requires Inv(k) && k.running in k.procs
    ensures MarkRunning(k).Ok? && Inv(MarkRunning(k).value)
  {
    hide Inv;
    Touch(k, MarkRunning(k).value.procs[k.running]);
  }

  lemma DispatchKeeps(k: K)
    requires Inv(k) && k.running == NULL && k.ready != []
    ensures Dispatch(k).Ok? && Inv(Dispatch(k).value) && Dispatch(k).value.running in k.procs
  {
    DispatchMove(k);
    hide DescInv, FamilyInv, TimerInv, ReasonInv, PoolInv;
    assert Placed(k, k.ready[0], Ready);
  }

  lemma LookupWorks(k: K, fd: int)
    requires DescInv(k) && k.running in k.procs
    ensures Lookup(k, fd).Ok?
    ensures Lookup(k, fd).value.Some? ==> fd >= 0 && k.descs[Lookup(k, fd).value.value].fd == fd
  {
    assert ProcDescsOk(k, k.running);
    var l := k.procs[k.running].semDescs;
    assert forall d :: d in l ==> d in k.descs;
    forall i | 0 <= i < |l| ensures l[i] in k.descs { var d := l[i]; assert d in l; }
    var r := ByFd(k.descs, l, fd);
    assert r.Some? ==> r.value in l && k.descs[r.value].fd == fd;
    assert forall d :: d in l ==> 0 <= k.descs[d].fd;
  }

  // ---- semaphores

  /** The caller's descriptor for `fd` leads to a semaphore without a permit. */
  ghost predicate NoPermit(k: K, fd: int) {
    && Lookup(k, fd).Ok? && Lookup(k, fd).value.Some?
    && var d := Lookup(k, fd).value.value;
       k.descs[d].sem in k.sems && k.sems[k.descs[d].sem].count <= 0
  }

  lemma SemWaitKeeps(k: K)
    requires Inv(k) && k.running in k.procs && k.procs[k.running].call == CALL_SEMWAIT
    ensures SemWait(k) == Fault <==> k.ready == [] && NoPermit(k, k.procs[k.running].arg0)
    ensures SemWait(k).Ok? ==> Inv(SemWait(k).value) && SemWait(k).value.running in SemWait(k).value.procs
  {
    hide SchedInv, ReasonInv, TimerInv, DescInv, FamilyInv, PoolInv;
    var fd := k.procs[k.running].arg0;
    LookupWorks(k, fd);
    match Lookup(k, fd).value
    case None => ReturnKeeps(k, DSOS_ESEMWAIT);
    case Some(d) =>
      OpenNode(k, d);
      var s := k.descs[d].sem;
      var c := k.sems[s].count - 1;
      if c >= 0 {
        WaitingMatches(k, s);
        CountMove(k, s, c);
        ReturnKeeps(SetSem(k, s, k.sems[s].(count := c)), 0);
      } else {
        ParkForSem(k, d);
        var k1 := Park(BlockedSem(k, d)).value;
        if k.ready != [] {
          DispatchKeeps(k1);
          ReturnKeeps(Dispatch(k1).value, 0);
        }
      }
  }

  lemma FindsDescriptor(k: K)
    requires Inv(k) && k.running in k.procs
    ensures AllIn(k.procs[k.running].semDescs, k.descs)
    ensures Lookup(k, k.procs[k.running].arg0) ==
            Ok(ByFd(k.descs, k.procs[k.running].semDescs, k.procs[k.running].arg0))
  {
    hide SchedInv, ReasonInv, TimerInv, FamilyInv, PoolInv;
    LookupWorks(k, k.procs[k.running].arg0);
  }

  lemma SemWaitMissing(k: K)
    requires k.running in k.procs && Lookup(k, k.procs[k.running].arg0) == Ok(None)
    ensures SemWait(k) == Return(k, DSOS_ESEMWAIT)
  {
  }

  /** The two ways through wait once the descriptor is found. */
  lemma SemWaitShape(k: K, d: Ref)
    requires Inv(k) && k.running in k.procs && Lookup(k, k.procs[k.running].arg0) == Ok(Some(d))
    ensures d in k.descs && k.descs[d].ptr != NULL && k.descs[d].sem != NULL && k.descs[d].sem in k.sems
    ensures var s := k.descs[d].sem;
            if k.sems[s].count > 0 then SemWait(k) == Return(SetSem(k, s, k.sems[s].(count := k.sems[s].count - 1)), 0)
            else SemWait(k).Ok? ==>
              && k.ready != [] && Park(BlockedSem(k, d)).Ok?
              && SemWait(k) == Return(Dispatch(Park(BlockedSem(k, d)).value).value, 0)
              && k.ready[0] in k.procs
  {
    hide SchedInv, ReasonInv, TimerInv, DescInv, FamilyInv, PoolInv;
    OpenNode(k, d);
  }

  lemma WaitingMatches(k: K, s: Ref)
    requires DescInv(k) && s in k.sems
    ensures |k.sems[s].waitingDescs| == H.Max0(-k.sems[s].count)
  {
    assert SemOk(k, s);
  }

  lemma SemPostKeeps(k: K)
    requires Inv(k) && k.running in k.procs
    ensures SemPost(k).Ok? && Inv(SemPost(k).value) && SemPost(k).value.running in SemPost(k).value.procs
  {
    hide SchedInv, ReasonInv, TimerInv, DescInv, FamilyInv, PoolInv;
    var fd := k.procs[k.running].arg0;
    LookupWorks(k, fd);
    match Lookup(k, fd).value
    case None => ReturnKeeps(k, DSOS_ESEMPOST);
    case Some(d) =>
      OpenNode(k, d);
      var s := k.descs[d].sem;
      WaitingMatches(k, s);
      if k.sems[s].count + 1 > 0 {
        CountMove(k, s, k.sems[s].count + 1);
        ReturnKeeps(Counted(k, s), 0);
      } else {
        YieldMove(k);
        var k1 := Yield(k).value;
        assert Yield(Counted(k, s)) == Ok(Counted(k1, s));
        HandOffMove(k1, s);
        HeadWaits(k1, s);
        ReturnKeeps(HandOff(Counted(k1, s), s).value, 0);
      }
  }

  lemma SemPostMissing(k: K)
    requires k.running in k.procs && Lookup(k, k.procs[k.running].arg0) == Ok(None)
    ensures SemPost(k) == Return(k, DSOS_ESEMPOST)
  {
  }

  /** The two ways through post once the descriptor is found. */
  lemma SemPostShape(k: K, d: Ref)
    requires Inv(k) && k.running in k.procs && Lookup(k, k.procs[k.running].arg0) == Ok(Some(d))
    ensures d in k.descs && k.descs[d].sem != NULL && k.descs[d].sem in k.sems
    ensures var s := k.descs[d].sem;
            var k1 := Counted(k, s);
            if k1.sems[s].count > 0 then SemPost(k) == Return(k1, 0)
            else
              && Yield(k1).Ok? && s in Yield(k1).value.sems && HandOff(Yield(k1).value, s).Ok?
              && SemPost(k) == Return(HandOff(Yield(k1).value, s).value, 0)
              && HandOff(Yield(k1).value, s).value.running in HandOff(Yield(k1).value, s).value.procs
  {
    hide SchedInv, ReasonInv, TimerInv, DescInv, FamilyInv, PoolInv;
    OpenNode(k, d);
    SemPostKeeps(k);
  }

  lemma SemOpenKeeps(k: K)
    requires Inv(k) && k.running in k.procs
    ensures SemOpen(k).Ok? && Inv(SemOpen(k).value) && SemOpen(k).value.running in SemOpen(k).value.procs
  {
    hide SchedInv, ReasonInv, TimerInv, DescInv, FamilyInv, PoolInv;
    var me := k.procs[k.running];
    SemListWorks(k);
    if me.arg1 < 0 || me.arg0 < 0 {
      ReturnKeeps(k, DSOS_ESEMOPEN);
    } else {
      match ById(k.sems, k.semList, me.arg0)
      case Some(s) => OpenDescKeeps(k, s);
      case None =>
        if k.freeSems == [] {
          ReturnKeeps(k, DSOS_ESEMOPEN);
        } else {
          AllocSemMove(k, me.arg0, me.arg1);
          OpenDescKeeps(AllocSem(k, me.arg0, me.arg1), k.nextRef);
        }
    }
  }

  lemma SemListWorks(k: K)
    requires DescInv(k)
    ensures AllIn(k.semList, k.sems) && forall s :: s in k.sems ==> s in k.semList
  {
    assert forall s :: s in k.semList ==> s in k.sems;
    forall i | 0 <= i < |k.semList| ensures k.semList[i] in k.sems { var s := k.semList[i]; assert s in k.semList; }
  }

  lemma EqualPools(k: K)
    requires PoolInv(k)
    ensures k.freeDescs == k.freePtrs
  {
  }

  /** The second descriptor allocation cannot fail after the first has succeeded. */
  lemma OpenDescKeeps(k: K, s: Ref)
    requires Inv(k) && k.running in k.procs && s in k.sems
    ensures OpenDesc(k, s).Ok? && Inv(OpenDesc(k, s).value)
    ensures OpenDesc(k, s).value.running in OpenDesc(k, s).value.procs
    ensures k.freeDescs > 0 ==> OpenDesc(k, s) == Return(Opened(k, s), k.procs[k.running].lastSemFd)
  {
    hide Inv, SchedInv, ReasonInv, TimerInv, DescInv, FamilyInv, PoolInv, OpenDesc, Opened;
    InvParts(k);
    EqualPools(k);
    if k.freeDescs <= 0 {
      NoFreeDesc(k, s);
      ReturnKeeps(k, DSOS_ESEMOPEN);
    } else {
      OpenedMove(k, s);
      OpenDescShape(k, s);
      ReturnKeeps(Opened(k, s), k.procs[k.running].lastSemFd);
    }
  }

  lemma OpenDescShape(k: K, s: Ref)
    requires k.running in k.procs && s in k.sems && k.freeDescs > 0 && k.freePtrs > 0
    ensures Opened(k, s).running == k.running && k.running in Opened(k, s).procs
    ensures OpenDesc(k, s) == Return(Opened(k, s), k.procs[k.running].lastSemFd)
  {
    var d, fd := k.nextRef, k.procs[k.running].lastSemFd;
    assert k.descs[d := SemDesc(k.running, s, fd, NULL)][d := SemDesc(k.running, s, fd, d + 1)]
           == k.descs[d := SemDesc(k.running, s, fd, d + 1)];
  }

  lemma NoFreeDesc(k: K, s: Ref)
    requires k.running in k.procs && k.freeDescs <= 0
    ensures OpenDesc(k, s) == Return(k, DSOS_ESEMOPEN)
  {
  }

  /** Open, once the semaphore is known or allocated, is the opening of its descriptor. */
  lemma SemOpenShape(k: K)
    requires Inv(k) && k.running in k.procs
    ensures AllIn(k.semList, k.sems)
    ensures var me := k.procs[k.running];
            if me.arg1 < 0 || me.arg0 < 0 then SemOpen(k) == Return(k, DSOS_ESEMOPEN)
            else
              match ById(k.sems, k.semList, me.arg0)
              case Some(s) => s in k.sems && SemOpen(k) == OpenDesc(k, s)
              case None =>
                if k.freeSems == [] then SemOpen(k) == Return(k, DSOS_ESEMOPEN)
                else
                  && Inv(AllocSem(k, me.arg0, me.arg1))
                  && SemOpen(k) == OpenDesc(AllocSem(k, me.arg0, me.arg1), k.nextRef)
  {
    hide SchedInv, ReasonInv, TimerInv, DescInv, FamilyInv, PoolInv, OpenDesc;
    SemListWorks(k);
    var me := k.procs[k.running];
    if me.arg1 >= 0 && me.arg0 >= 0 && ById(k.sems, k.semList, me.arg0) == None && k.freeSems != [] {
      AllocSemMove(k, me.arg0, me.arg1);
    }
  }

  lemma SemCloseMissing(k: K)
    requires k.running in k.procs && Lookup(k, k.procs[k.running].arg0) == Ok(None)
    ensures SemClose(k) == Return(k, DSOS_ESEMCLOSE)
  {
  }

  /** The state once the descriptor and its node are off their lists. */
  function Unhooked(k: K, d: Ref): K
    requires k.running in k.procs && d in k.descs && k.descs[d].sem in k.sems
  {
    var me := k.procs[k.running];
    var s, q := k.descs[d].sem, k.descs[d].ptr;
    SetSem(Put(k, k.running, me.(semDescs := Without(me.semDescs, d))), s,
           k.sems[s].(descs := Without(k.sems[s].descs, q)))
  }

  lemma SemCloseSteps(k: K, d: Ref)
    requires Inv(k) && k.running in k.procs && Lookup(k, k.procs[k.running].arg0) == Ok(Some(d))
    ensures d in k.descs && k.descs[d].sem in k.sems && k.descs[d].sem in k.semList
    ensures var k2 := Unhooked(k, d);
            var s, q := k.descs[d].sem, k.descs[d].ptr;
            if k2.sems[s].descs == [] && k2.sems[s].waitingDescs == []
            then FreeSem(k2, s).Ok? && SemClose(k) == FreeDesc(FreeSem(k2, s).value, d, q)
            else SemClose(k) == FreeDesc(k2, d, q)
  {
    hide SchedInv, ReasonInv, TimerInv, DescInv, FamilyInv, PoolInv;
    CloseFinds(k, d);
  }

  /** What close finds on its way: none of its error branches after the first is alive. */
  lemma CloseFinds(k: K, d: Ref)
    requires Inv(k) && k.running in k.procs && Lookup(k, k.procs[k.running].arg0) == Ok(Some(d))
    ensures k.procs[k.running].arg0 >= 0 && d in k.procs[k.running].semDescs && d in k.descs
    ensures k.descs[d].sem != NULL && k.descs[d].sem in k.sems && k.descs[d].sem in k.semList
    ensures k.descs[d].ptr in k.ptrs && k.descs[d].ptr in k.sems[k.descs[d].sem].descs
  {
    hide SchedInv, ReasonInv, TimerInv, DescInv, FamilyInv, PoolInv;
    LookupWorks(k, k.procs[k.running].arg0);
    OpenNode(k, d);
    SemListWorks(k);
  }

  lemma SemCloseKeeps(k: K)
    requires Inv(k) && k.running in k.procs
    ensures SemClose(k).Ok? && Inv(SemClose(k).value) && SemClose(k).value.running in SemClose(k).value.procs
  {
    hide SchedInv, ReasonInv, TimerInv, DescInv, FamilyInv, PoolInv;
    var fd := k.procs[k.running].arg0;
    LookupWorks(k, fd);
    match Lookup(k, fd).value
    case None => ReturnKeeps(k, DSOS_ESEMCLOSE);
    case Some(d) =>
      CloseShape(k, d);
      AfterCloseKeeps(k, d);
      ReturnKeeps(AfterClose(k, d), 0);
  }

  /** Closing removes the descriptor and its node, and the semaphore too when no node is left. */
  ghost function AfterClose(k: K, d: Ref): K
    requires k.running in k.procs && d in k.descs && k.descs[d].sem in k.sems
  {
    var k1 := Closed(k, d);
    var s := k.descs[d].sem;
    if k1.sems[s].descs == [] && k1.sems[s].waitingDescs == [] && FreeSem(k1, s).Ok? then FreeSem(k1, s).value else k1
  }

  lemma AfterCloseKeeps(k: K, d: Ref)
    requires Inv(k) && k.running in k.procs && d in k.procs[k.running].semDescs
    ensures d in k.descs && k.descs[d].sem in k.sems && Inv(AfterClose(k, d))
    ensures AfterClose(k, d).running == k.running && AfterClose(k, d).procs.Keys == k.procs.Keys
  {
    hide Inv;
    ClosedMove(k, d);
    var k1 := Closed(k, d);
    var s := k.descs[d].sem;
    if k1.sems[s].descs == [] && k1.sems[s].waitingDescs == [] { FreeSemMove(k1, s); }
  }

  lemma CloseShape(k: K, d: Ref)
    requires Inv(k) && k.running in k.procs
    requires Lookup(k, k.procs[k.running].arg0) == Ok(Some(d))
    ensures k.descs[d].sem in k.sems && SemClose(k) == Return(AfterClose(k, d), 0)
  {
    hide SchedInv, ReasonInv, TimerInv, DescInv, FamilyInv, PoolInv;
    LookupWorks(k, k.procs[k.running].arg0);
    OpenNode(k, d);
    ClosedMove(k, d);
    var s := k.descs[d].sem;
    var k1 := Closed(k, d);
    if k1.sems[s].descs == [] && k1.sems[s].waitingDescs == [] {
      FreeSemMove(k1, s);
    }
  }

  // ---- time

  lemma SleepKeeps(k: K)
    requires Inv(k) && k.running in k.procs && k.procs[k.running].call == CALL_SLEEP
    ensures Sleep(k).Ok? && Inv(Sleep(k).value)
    ensures Sleep(k).value.running == if k.ready == [] then NULL else k.ready[0]
    ensures k.ready != [] ==> Sleep(k).value.running in Sleep(k).value.procs
  {
    hide SchedInv, ReasonInv, TimerInv, DescInv, FamilyInv, PoolInv;
    TimerFree(k);
    NoTimerYet(k);
    ParkForTimer(k);
    var k1 := Park(Asleep(k)).value;
    if k1.ready != [] {
      DispatchKeeps(k1);
    }
  }

  /** The one way through sleep: both error branches are dead. */
  lemma SleepShape(k: K)
    requires Inv(k) && k.running in k.procs && k.procs[k.running].call == CALL_SLEEP
    ensures !k.procs[k.running].hasTimer && k.freeTimers > 0
    ensures Park(Asleep(k)).Ok?
    ensures Sleep(k) == if k.ready == [] then Park(Asleep(k)) else Dispatch(Park(Asleep(k)).value)
  {
    hide SchedInv, ReasonInv, TimerInv, DescInv, FamilyInv, PoolInv;
    TimerFree(k);
    NoTimerYet(k);
    ParkForTimer(k);
  }

  lemma NoTimerYet(k: K)
    requires TimerInv(k) && k.running in k.procs
    ensures !k.procs[k.running].hasTimer
  {
  }

  /** The wake-up loop ends with the invariant intact; it only ever adds to the ready queue. */
  lemma {:induction false} WakeKeeps(k: K, at: nat)
    requires Inv(k) && at <= |k.ready|
    ensures WakeElapsed(k, at).Ok? && Inv(WakeElapsed(k, at).value)
    ensures WakeElapsed(k, at).value.running == k.running && WakeElapsed(k, at).value.procs.Keys == k.procs.Keys
    decreases |k.timers|
  {
    hide Inv;
    if Elapsed(k) {
      WakeMove(k, at);
      WakeKeeps(WakeFirst(k, at).value, at + 1);
    }
  }

  lemma ScheduleKeeps(k: K)
    requires Inv(k) && k.running in k.procs
    ensures Schedule(k).Ok? && Inv(Schedule(k).value) && Schedule(k).value.running in Schedule(k).value.procs
  {
    hide Inv;
    WakeKeeps(k, 0);
    var k1 := WakeElapsed(k, 0).value;
    if k1.ready != [] {
      YieldMove(k1);
      var k2 := Yield(k1).value;
      DispatchKeeps(k2);
      MarkKeeps(Dispatch(k2).value);
    }
  }

  lemma TickKeeps(k: K)
    requires Inv(k) && k.running in k.procs
    ensures Tick(k).Ok? && Inv(Tick(k).value) && Tick(k).value.running in Tick(k).value.procs
  {
    hide Inv;
    ClockMove(k);
    ScheduleKeeps(k.(now := k.now + 1));
  }

  lemma ClockMove(k: K)
    requires Inv(k)
    ensures Inv(k.(now := k.now + 1))
  {
    hide SchedInv, ReasonInv, TimerInv, DescInv, FamilyInv, PoolInv;
    var k1 := k.(now := k.now + 1);
    FrameSched(k, k1);
    FrameSleepers(k, k1);
    FrameKin(k, k1);
    FrameDesc(k, k1);
    FramePools(k, k1);
    NotRunning(k);
    FrameReasons(k, k1);
  }

  // ---- processes

  lemma ChildrenExist(k: K)
    requires FamilyInv(k) && SchedInv(k) && k.running in k.procs
    ensures forall i :: 0 <= i < |k.procs[k.running].children| ==> k.procs[k.running].children[i] in k.procs
    ensures forall c :: c in k.procs[k.running].children ==>
              c in k.procs && c != k.running && c != INIT && k.procs[c].parent == k.running && k.running < c
  {
    assert FamilyOk(k, k.running);
    var l := k.procs[k.running].children;
    assert forall c :: c in l ==> c in k.procs;
    forall i | 0 <= i < |l| ensures l[i] in k.procs { var c := l[i]; assert c in l; }
  }

  lemma DeadChildBuried(k: K, c: Pid)
    requires SchedInv(k) && c in k.procs && k.procs[c].status == Zombie && c != k.running
    ensures c in k.zombies
  {
    assert !Unlinked(k, c);
    assert !Placed(k, c, Ready) && !Placed(k, c, Waiting);
  }

  /** The child wait looks at is not a zombie, so wait blocks. */
  ghost predicate NoDeadChild(k: K, pid: int) {
    && k.running in k.procs && k.procs[k.running].children != []
    && (forall i :: 0 <= i < |k.procs[k.running].children| ==> k.procs[k.running].children[i] in k.procs)
    && k.procs[ScanChildren(k, k.procs[k.running].children, pid)].status != Zombie
  }

  /** The three ways through wait. */
  lemma WaitShape(k: K)
    requires Inv(k) && k.running in k.procs && k.procs[k.running].call == CALL_WAIT
    ensures var me := k.procs[k.running];
            forall i :: 0 <= i < |me.children| ==> me.children[i] in k.procs
    ensures var me := k.procs[k.running];
            if me.children == [] then Wait(k) == Return(k, DSOS_EWAIT)
            else
              var c := ScanChildren(k, me.children, me.arg0);
              if k.procs[c].status == Zombie then
                c != k.running && c in me.children && c in k.zombies && Wait(k) == Reap(k, c) && Reap(k, c).Ok?
              else Park(k).Ok? && Wait(k) == Dispatch(Park(k).value) && Park(k).value.ready == k.ready
  {
    hide SchedInv, ReasonInv, TimerInv, DescInv, FamilyInv, PoolInv;
    ChildrenExist(k);
    RunningUnlinked(k);
    var me := k.procs[k.running];
    if me.children != [] {
      var c := ScanChildren(k, me.children, me.arg0);
      if k.procs[c].status == Zombie {
        DeadChildBuried(k, c);
        ReapKeeps(k, c);
      }
    }
  }

  lemma WaitKeeps(k: K)
    requires Inv(k) && k.running in k.procs && k.procs[k.running].call == CALL_WAIT
    ensures Wait(k) == Fault <==> k.ready == [] && NoDeadChild(k, k.procs[k.running].arg0)
    ensures Wait(k).Ok? ==> Inv(Wait(k).value) && Wait(k).value.running in Wait(k).value.procs
  {
    hide SchedInv, ReasonInv, TimerInv, DescInv, FamilyInv, PoolInv;
    var me := k.procs[k.running];
    if me.children == [] {
      ReturnKeeps(k, DSOS_EWAIT);
    } else {
      ChildrenExist(k);
      var c := ScanChildren(k, me.children, me.arg0);
      if k.procs[c].status == Zombie {
        DeadChildBuried(k, c);
        ReapKeeps(k, c);
      } else {
        NoMatchingZombie(k);
        ParkForChild(k);
        if k.ready != [] {
          DispatchKeeps(Park(k).value);
        }
      }
    }
  }

  /** When the scan stops at a live child, no child that would answer the wait is dead. */
  lemma NoMatchingZombie(k: K)
    requires k.running in k.procs && NoDeadChild(k, k.procs[k.running].arg0)
    ensures StillAwaits(k, k.running)
  {
    var me := k.procs[k.running];
    forall x | x in me.children && x in k.procs && k.procs[x].status == Zombie ensures me.arg0 != 0 && me.arg0 != x {
      var c := ScanChildren(k, me.children, me.arg0);
      assert Matches(k, c, me.arg0) || !Matches(k, x, me.arg0);
    }
  }

  lemma ReapKeeps(k: K, c: Pid)
    requires Inv(k) && k.running in k.procs && c in k.procs[k.running].children && c in k.zombies && c in k.procs
    requires c != INIT && k.procs[c].parent == k.running
    ensures Reap(k, c).Ok? && Inv(Reap(k, c).value) && Reap(k, c).value.running in Reap(k, c).value.procs
  {
    hide SchedInv, ReasonInv, TimerInv, DescInv, FamilyInv, PoolInv;
    RemovedMove(k, c, k.freePcbPtrs + 1);
    var k1 := Removed(k, c, k.freePcbPtrs + 1);
    var me := k1.procs[k.running].(ret := c);
    Touch(k1, me);
    assert Reap(k, c).value == Put(k1, k.running, me);
  }

  // ---- exit

  /** What exit asks of its caller: not init, children all gone, semaphores all closed. */
  predicate CleanExit(k: K) {
    && k.running in k.procs && k.running != INIT
    && k.procs[k.running].children == [] && k.procs[k.running].semDescs == []
  }

  lemma ParentFacts(k: K)
    requires SchedInv(k) && FamilyInv(k) && k.running in k.procs && k.running != INIT
    ensures INIT in k.procs && k.procs[k.running].parent in k.procs && k.procs[k.running].parent != k.running
    ensures k.procs[k.running].parent >= 0
    ensures k.running in k.procs[k.procs[k.running].parent].children
    ensures ParentAwaits(k, k.running) ==> k.procs[k.running].parent in k.waiting
  {
    var p := k.procs[k.running].parent;
    assert FamilyOk(k, k.running) && FamilyOk(k, p);
    assert !Unlinked(k, p) && (p in k.ready ==> Placed(k, p, Ready)) && (p in k.zombies ==> Placed(k, p, Zombie));
  }

  /** The state exit has reached when it has recorded its value. */
  function Valued(k: K): K
    requires k.running in k.procs
  {
    Put(k, k.running, k.procs[k.running].(exitValue := k.procs[k.running].arg0))
  }

  lemma ExitKeeps(k: K)
    requires Inv(k) && CleanExit(k)
    ensures k.procs[k.running].parent in k.procs
    ensures Exit(k) == Fault <==> k.ready == [] && !ParentAwaits(k, k.running)
    ensures Exit(k).Ok? ==> Inv(Exit(k).value) && Exit(k).value.running in Exit(k).value.procs
  {
    hide SchedInv, ReasonInv, TimerInv, DescInv, FamilyInv, PoolInv;
    ParentFacts(k);
    RunningUnlinked(k);
    var k0 := Valued(k);
    Touch(k, k0.procs[k.running]);
    ParentFacts(k0);
    if ParentAwaits(k, k.running) {
      BuryKeeps(k0);
    } else {
      DieMove(k0);
      if k.ready != [] {
        DispatchKeeps(Die(k0));
        MarkKeeps(Dispatch(Die(k0)).value);
      }
    }
  }

  /** The hand-over to a waiting parent, as a chain of moves: the parent becomes ready, the child dies and is
      removed, and the parent is taken from the end of the ready queue. */
  ghost function Buried(k: K): K
    requires k.running in k.procs && k.procs[k.running].parent in k.procs && k.procs[k.running].parent != k.running
  {
    var me, p := k.running, k.procs[k.running].parent;
    var k3 := TakeLast(Removed(Die(ToReady(k, p)), me, k.freePcbPtrs));
    if p in k3.procs then Put(k3, p, k3.procs[p].(status := Running, ret := me)) else k3
  }

  lemma BuryKeeps(k: K)
    requires Inv(k) && CleanExit(k) && k.procs[k.running].parent in k.procs && ParentAwaits(k, k.running)
    ensures Bury(Die(k), k.running).Ok? && Inv(Bury(Die(k), k.running).value)
    ensures Bury(Die(k), k.running).value.running in Bury(Die(k), k.running).value.procs
  {
    hide SchedInv, ReasonInv, TimerInv, DescInv, FamilyInv, PoolInv;
    ParentFacts(k);
    var me, p := k.running, k.procs[k.running].parent;
    ToReadyMove(k, p);
    var k1 := ToReady(k, p);
    DieMove(k1);
    var k2 := Die(k1);
    RemovedMove(k2, me, k.freePcbPtrs);
    var k3 := Removed(k2, me, k.freePcbPtrs);
    TakeLastMove(k3);
    var k4 := TakeLast(k3);
    Touch(k4, k4.procs[p].(status := Running, ret := me));
    BuriedShape(k);
  }

  /** The same state, said at once. */
  ghost function Laid(k: K): K
    requires k.running in k.procs && k.procs[k.running].parent in k.procs
  {
    var me, p := k.running, k.procs[k.running].parent;
    var parent := k.procs[p].(status := Running, children := Without(k.procs[p].children, me), ret := me);
    k.(procs := k.procs[p := parent] - {me}, running := p, waiting := Without(k.waiting, p),
       zombies := Without(k.zombies + [me], me), freePcbs := [k.procs[me].semDescs] + k.freePcbs)
  }

  lemma BuriedLaid(k: K)
    requires k.running in k.procs && k.procs[k.running].parent in k.procs && k.procs[k.running].parent != k.running
    ensures Buried(k) == Laid(k)
  {
    hide Without;
    var p := k.procs[k.running].parent;
    assert (k.ready + [p])[..|k.ready|] == k.ready;
    assert Buried(k).procs == Laid(k).procs;
  }

  lemma BuryLaid(k: K)
    requires k.running in k.procs && k.procs[k.running].parent in k.procs && k.procs[k.running].parent != k.running
    requires k.procs[k.running].parent in k.waiting && DropTimers(k.timers, k.running) == k.timers
    requires k.running in k.procs[k.procs[k.running].parent].children
    ensures Bury(Die(k), k.running) == Ok(Laid(k))
  {
    hide Without, DropTimers;
    assert Bury(Die(k), k.running).value.procs == Laid(k).procs;
  }

  lemma BuriedShape(k: K)
    requires Inv(k) && CleanExit(k) && k.procs[k.running].parent in k.procs && ParentAwaits(k, k.running)
    requires k.procs[k.running].parent != k.running && k.procs[k.running].parent in k.waiting
    requires k.running in k.procs[k.procs[k.running].parent].children
    ensures Bury(Die(k), k.running) == Ok(Buried(k))
  {
    hide Inv, Bury, Buried, Laid, SchedInv, TimerInv;
    InvParts(k);
    NoTimerOfMine(k);
    DropTimersNone(k.timers, k.running);
    BuriedLaid(k);
    BuryLaid(k);
  }

  lemma NoTimerOfMine(k: K)
    requires TimerInv(k) && SchedInv(k)
    ensures forall i :: 0 <= i < |k.timers| ==> k.timers[i].pid != k.running
  {
    forall i | 0 <= i < |k.timers| ensures k.timers[i].pid != k.running {
      assert SleepsBy(k, k.timers[i]) && Placed(k, k.timers[i].pid, Waiting);
    }
  }

  // ---- the step theorem

  /** The call has to give up the processor. */
  ghost predicate WouldBlock(k: K, e: Event)
    requires k.running in k.procs
  {
    match e
    case SemWaitCall(fd) => NoPermit(k, fd)
    case WaitCall(pid) => NoDeadChild(k, pid)
    case ExitCall(_) => k.procs[k.running].parent in k.procs && !ParentAwaits(k, k.running)
    case _ => false
  }

  /** The only ways to fault: spawning from an exhausted pool, and detaching the head of an empty ready queue. */
  ghost predicate Faults(k: K, e: Event)
    requires k.running in k.procs
  {
    || (e == SpawnCall && (k.freePcbs == [] || k.freePcbPtrs <= 0))
    || (k.ready == [] && WouldBlock(k, e))
  }

  /** From a state that satisfies the invariant, a call faults in exactly these cases, and otherwise leads to a
      state that satisfies the invariant. Exit is held to its requirements here; see `KernelExit` without them. */
  lemma StepKeeps(k: K, e: Event)
    requires Inv(k) && k.running in k.procs && (e.ExitCall? ==> CleanExit(k))
    ensures Step(k, e) == Fault <==> Faults(k, e)
    ensures Step(k, e).Ok? ==> Inv(Step(k, e).value)
    ensures Step(k, e).Ok? && !(e.SleepCall? && k.ready == []) ==>
              Step(k, e).value.running in Step(k, e).value.procs
  {
    hide Inv, SchedInv, ReasonInv, TimerInv, DescInv, FamilyInv, PoolInv;
    match e
    case TickEvent => TickKeeps(k);
    case PreemptCall =>
      EnterKeeps(k, CALL_PREEMPT, []);
      ScheduleKeeps(Enter(k, CALL_PREEMPT, []).value);
    case SpawnCall => SpawnStep(k);
    case ExitCall(v) => ExitStep(k, v);
    case WaitCall(p) => WaitStep(k, p);
    case SleepCall(n) =>
      EnterKeeps(k, CALL_SLEEP, [n]);
      SleepKeeps(Enter(k, CALL_SLEEP, [n]).value);
    case SemOpenCall(id, c) =>
      EnterKeeps(k, CALL_SEMOPEN, [id, c]);
      SemOpenKeeps(Enter(k, CALL_SEMOPEN, [id, c]).value);
    case SemCloseCall(fd) =>
      EnterKeeps(k, CALL_SEMCLOSE, [fd]);
      SemCloseKeeps(Enter(k, CALL_SEMCLOSE, [fd]).value);
    case SemWaitCall(fd) => SemWaitStep(k, fd);
    case SemPostCall(fd) =>
      EnterKeeps(k, CALL_SEMPOST, [fd]);
      SemPostKeeps(Enter(k, CALL_SEMPOST, [fd]).value);
  }

  lemma SpawnStep(k: K)
    requires Inv(k) && k.running in k.procs
    ensures Step(k, SpawnCall) == Fault <==> Faults(k, SpawnCall)
    ensures Step(k, SpawnCall).Ok? ==>
              Inv(Step(k, SpawnCall).value) && Step(k, SpawnCall).value.running in Step(k, SpawnCall).value.procs
  {
    hide Inv;
    EnterKeeps(k, CALL_SPAWN, [0, 0]);
    var k1 := Enter(k, CALL_SPAWN, [0, 0]).value;
    if k1.freePcbs != [] && k1.freePcbPtrs > 0 { SpawnMove(k1); }
  }

  lemma SemWaitStep(k: K, fd: int)
    requires Inv(k) && k.running in k.procs
    ensures Step(k, SemWaitCall(fd)) == Fault <==> Faults(k, SemWaitCall(fd))
    ensures Step(k, SemWaitCall(fd)).Ok? ==>
              Inv(Step(k, SemWaitCall(fd)).value)
              && Step(k, SemWaitCall(fd)).value.running in Step(k, SemWaitCall(fd)).value.procs
  {
    hide Inv;
    EnterKeeps(k, CALL_SEMWAIT, [fd]);
    var k1 := Enter(k, CALL_SEMWAIT, [fd]).value;
    assert Lookup(k1, fd) == Lookup(k, fd);
    SemWaitKeeps(k1);
  }

  lemma WaitStep(k: K, pid: int)
    requires Inv(k) && k.running in k.procs
    ensures Step(k, WaitCall(pid)) == Fault <==> Faults(k, WaitCall(pid))
    ensures Step(k, WaitCall(pid)).Ok? ==>
              Inv(Step(k, WaitCall(pid)).value)
              && Step(k, WaitCall(pid)).value.running in Step(k, WaitCall(pid)).value.procs
  {
    hide Inv;
    EnterKeeps(k, CALL_WAIT, [pid, 0]);
    var k1 := Enter(k, CALL_WAIT, [pid, 0]).value;
    ScanSame(k, k1, pid);
    WaitKeeps(k1);
  }

  lemma ScanSame(k: K, k1: K, pid: int)
    requires k1.running == k.running && k.running in k.procs && k1.procs.Keys == k.procs.Keys
    requires k1.procs[k.running].children == k.procs[k.running].children
    requires forall p :: p in k.procs ==> k1.procs[p].status == k.procs[p].status
    ensures NoDeadChild(k1, pid) <==> NoDeadChild(k, pid)
  {
    var cs := k.procs[k.running].children;
    if cs != [] && forall i :: 0 <= i < |cs| ==> cs[i] in k.procs {
      ScanSameOn(k, k1, cs, pid);
    }
  }

  lemma {:induction false} ScanSameOn(k: K, k1: K, cs: seq<Pid>, pid: int)
    requires cs != [] && k1.procs.Keys == k.procs.Keys && forall i :: 0 <= i < |cs| ==> cs[i] in k.procs
    requires forall p :: p in k.procs ==> k1.procs[p].status == k.procs[p].status
    ensures forall i :: 0 <= i < |cs| ==> cs[i] in k1.procs
    ensures ScanChildren(k1, cs, pid) == ScanChildren(k, cs, pid)
  {
    assert forall i :: 0 <= i < |cs| ==> cs[i] in k1.procs.Keys;
    if |cs| > 1 {
      ScanSameOn(k, k1, cs[1..], pid);
    }
  }

  lemma ExitStep(k: K, v: int)
    requires Inv(k) && CleanExit(k)
    ensures Step(k, ExitCall(v)) == Fault <==> Faults(k, ExitCall(v))
    ensures Step(k, ExitCall(v)).Ok? ==>
              Inv(Step(k, ExitCall(v)).value)
              && Step(k, ExitCall(v)).value.running in Step(k, ExitCall(v)).value.procs
  {
    hide Inv, SchedInv, FamilyInv;
    EnterKeeps(k, CALL_EXIT, [v]);
    var k1 := Enter(k, CALL_EXIT, [v]).value;
    InvParts(k);
    ParentFacts(k);
    ExitKeeps(k1);
  }

  lemma InvParts(k: K)
    requires Inv(k)
    ensures SchedInv(k) && ReasonInv(k) && TimerInv(k) && DescInv(k) && FamilyInv(k) && PoolInv(k)
  {
  }
}
