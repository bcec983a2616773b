/** The status field of the running process: what each kind of step leaves in it. */
module KernelStatus {
  import opened Outcomes
  import opened KernelState
  import opened KernelInvariant
  import opened KernelSemMoves
  import opened KernelSteps
  import opened KernelEffects
  import opened KernelRuns

  /** The status of whoever runs after the step. A call that gives up the processor leaves the next process marked
      ready, a post that hands over leaves the woken one marked waiting; only the scheduler and exit set the field. */
  ghost function StatusOf(k: K, e: Event): Status
    requires k.running in k.procs
  {
    match EffectOf(k, e)
    case Popped => if e.ExitCall? then Running else Ready
    case HandedOff(_) => Waiting
    case Replaced(_) => Running
    case Rotated(w) => if w + k.ready == [] then k.procs[k.running].status else Running
    case _ => k.procs[k.running].status
  }

  /** The step goes by way of the scheduler or exit, or leaves the caller running. */
  ghost predicate MarksRunning(k: K, e: Event)
    requires k.running in k.procs
  {
    var marked := k.procs[k.running].status == Running;
    match e
    case TickEvent => marked || k.ready != [] || (exists t :: t in k.timers && t.awake <= k.now + 1)
    case PreemptCall => marked || k.ready != [] || (exists t :: t in k.timers && t.awake <= k.now)
    case ExitCall(_) => true
    case SleepCall(_) => false
    case WaitCall(_) => marked && !WouldBlock(k, e)
    case SemWaitCall(_) => marked && !WouldBlock(k, e)
    case SemPostCall(fd) => marked && !PostHandsOff(k, fd)
    case _ => marked
  }

  lemma HeadIsReady(k: K)
    requires Inv(k) && k.ready != []
    ensures k.ready[0] in k.procs && k.procs[k.ready[0]].status == Ready && k.ready[0] != k.running
  {
    hide ReasonInv, TimerInv, DescInv, FamilyInv, PoolInv;
    assert k.ready[0] in k.ready;
    assert Placed(k, k.ready[0], Ready);
  }

  lemma ScheduleStatus(k: K)
    requires Inv(k) && k.running in k.procs && Schedule(k).Ok?
    ensures var r := Schedule(k).value;
            && r.running in r.procs
            && r.procs[r.running].status ==
               if ElapsedPids(k.timers, k.now) + k.ready == [] then k.procs[k.running].status else Running
  {
    hide Inv, Yield, Dispatch;
    WakeEffect(k, 0);
    ScheduleKeeps(k);
    if ElapsedPids(k.timers, k.now) + k.ready == [] {
      assert !Elapsed(k) && WakeElapsed(k, 0) == Ok(k);
    }
  }

  lemma WaitStatus(k: K)
    requires Inv(k) && k.running in k.procs && k.procs[k.running].call == CALL_WAIT && Wait(k).Ok?
    ensures var r := Wait(k).value;
            && r.running in r.procs
            && r.procs[r.running].status ==
               if NoDeadChild(k, k.procs[k.running].arg0) then Ready else k.procs[k.running].status
  {
    hide Inv, Wait, ScanChildren;
    WaitShape(k);
    if k.ready != [] { HeadIsReady(k); }
    var me := k.procs[k.running];
    if me.children != [] {
      var c := ScanChildren(k, me.children, me.arg0);
      if k.procs[c].status == Zombie { ReapStatus(k, c); } else { DispatchStatus(k, Park(k).value); }
    }
  }

  lemma ReapStatus(k: K, c: Pid)
    requires k.running in k.procs && c in k.procs && c != k.running && Reap(k, c).Ok?
    ensures var r := Reap(k, c).value;
            r.running in r.procs && r.procs[r.running].status == k.procs[k.running].status
  {
  }

  /** Parking one process does not touch the head of the ready queue. */
  lemma DispatchStatus(k: K, k1: K)
    requires Inv(k) && k.running in k.procs && Park(k) == Ok(k1) && Dispatch(k1).Ok?
    ensures var r := Dispatch(k1).value; r.running in r.procs && r.procs[r.running].status == Ready
  {
    hide Inv;
    HeadIsReady(k);
  }

  lemma SleepStatus(k: K)
    requires Inv(k) && k.running in k.procs && k.procs[k.running].call == CALL_SLEEP && k.ready != []
    ensures Sleep(k).Ok?
    ensures var r := Sleep(k).value; r.running in r.procs && r.procs[r.running].status == Ready
  {
    hide Inv, Sleep;
    SleepShape(k);
    SleepKeeps(k);
    HeadIsReady(k);
  }

  lemma SemWaitStatus(k: K)
    requires Inv(k) && k.running in k.procs && SemWait(k).Ok?
    ensures var r := SemWait(k).value;
            && r.running in r.procs
            && r.procs[r.running].status ==
               if NoPermit(k, k.procs[k.running].arg0) then Ready else k.procs[k.running].status
  {
    hide Inv, SemWait;
    FindsDescriptor(k);
    var found := Lookup(k, k.procs[k.running].arg0);
    match found.value
    case None => SemWaitMissing(k);
    case Some(d) =>
      SemWaitShape(k, d);
      if k.sems[k.descs[d].sem].count <= 0 { HeadIsReady(k); }
  }

  lemma SemPostStatus(k: K)
    requires Inv(k) && k.running in k.procs && SemPost(k).Ok?
    ensures var r := SemPost(k).value;
            && r.running in r.procs
            && r.procs[r.running].status ==
               if PostHandsOff(k, k.procs[k.running].arg0) then Waiting else k.procs[k.running].status
  {
    hide Inv, SemPost;
    FindsDescriptor(k);
    match Lookup(k, k.procs[k.running].arg0).value
    case None => SemPostMissing(k);
    case Some(d) =>
      SemPostShape(k, d);
      if k.sems[k.descs[d].sem].count < 0 { HandedStatus(k, k.descs[d].sem); }
  }

  lemma HandedStatus(k: K, s: Ref)
    requires Inv(k) && k.running in k.procs && s in k.sems && k.sems[s].count < 0
    requires Yield(Counted(k, s)).Ok? && HandOff(Yield(Counted(k, s)).value, s).Ok?
    ensures var r := HandOff(Yield(Counted(k, s)).value, s).value;
            r.running in r.procs && r.procs[r.running].status == Waiting
  {
    hide ReasonInv, TimerInv, FamilyInv, PoolInv;
    var q := k.sems[s].waitingDescs[0];
    assert SemOk(k, s) && q in k.sems[s].waitingDescs && WaitsThrough(k, q);
    assert Placed(k, k.descs[k.ptrs[q]].pid, Waiting);
  }

  lemma ExitStatus(k: K)
    requires CleanExit(k) && Exit(k).Ok?
    ensures var r := Exit(k).value; r.running in r.procs && r.procs[r.running].status == Running
  {
  }

  lemma OpenCloseStatus(k: K)
    requires k.running in k.procs
    ensures SemOpen(k).Ok? ==> KeepsStatus(k, SemOpen(k).value)
    ensures SemClose(k).Ok? ==> KeepsStatus(k, SemClose(k).value)
  {
    OpenStatus(k);
    CloseStatus(k);
  }

  ghost predicate KeepsStatus(k: K, r: K)
    requires k.running in k.procs
  {
    r.running == k.running && r.running in r.procs && r.procs[r.running].status == k.procs[k.running].status
  }

  lemma OpenDescStatus(k: K, s: Ref)
    requires k.running in k.procs && OpenDesc(k, s).Ok?
    ensures KeepsStatus(k, OpenDesc(k, s).value)
  {
  }

  lemma OpenStatus(k: K)
    requires k.running in k.procs
    ensures SemOpen(k).Ok? ==> KeepsStatus(k, SemOpen(k).value)
  {
    hide OpenDesc;
    var me := k.procs[k.running];
    if me.arg1 >= 0 && me.arg0 >= 0 && AllIn(k.semList, k.sems) && SemOpen(k).Ok? {
      match ById(k.sems, k.semList, me.arg0)
      case Some(s) => OpenDescStatus(k, s);
      case None => if k.freeSems != [] { OpenDescStatus(AllocSem(k, me.arg0, me.arg1), k.nextRef); }
    }
  }

  lemma CloseStatus(k: K)
    requires k.running in k.procs
    ensures SemClose(k).Ok? ==> KeepsStatus(k, SemClose(k).value)
  {
  }

  lemma SpawnStatus(k: K)
    requires Inv(k) && k.running in k.procs && Spawn(k).Ok?
    ensures KeepsStatus(k, Spawn(k).value)
  {
    hide ReasonInv, TimerInv, DescInv, FamilyInv, PoolInv;
  }

  /** What the status of the running process is after any step, whatever it was before. */
  lemma RunningStatus(k: K, e: Event, k1: K)
    requires Inv(k) && Follows(k, e, k1) && !(e.SleepCall? && k.ready == [])
    ensures k1.running in k1.procs && k1.procs[k1.running].status == StatusOf(k, e)
  {
    hide Inv, Schedule, Exit, Wait, Sleep, SemOpen, SemClose, SemWait, SemPost, Spawn, NoDeadChild, ParentAwaits;
    match e
    case TickEvent =>
      ClockMove(k);
      ScheduleStatus(k.(now := k.now + 1));
    case PreemptCall =>
      EnterKeeps(k, CALL_PREEMPT, []);
      ScheduleStatus(Enter(k, CALL_PREEMPT, []).value);
    case SpawnCall =>
      EnterKeeps(k, CALL_SPAWN, [0, 0]);
      SpawnStatus(Enter(k, CALL_SPAWN, [0, 0]).value);
    case ExitCall(v) => ExitStatus(Enter(k, CALL_EXIT, [v]).value);
    case WaitCall(p) =>
      EnterKeeps(k, CALL_WAIT, [p, 0]);
      var k0 := Enter(k, CALL_WAIT, [p, 0]).value;
      ScanSame(k, k0, p);
      WaitStatus(k0);
    case SleepCall(n) =>
      EnterKeeps(k, CALL_SLEEP, [n]);
      SleepStatus(Enter(k, CALL_SLEEP, [n]).value);
    case SemOpenCall(id, c) => OpenCloseStatus(Enter(k, CALL_SEMOPEN, [id, c]).value);
    case SemCloseCall(fd) => OpenCloseStatus(Enter(k, CALL_SEMCLOSE, [fd]).value);
    case SemWaitCall(fd) =>
      EnterKeeps(k, CALL_SEMWAIT, [fd]);
      var k0 := Enter(k, CALL_SEMWAIT, [fd]).value;
      assert Lookup(k0, fd) == Lookup(k, fd);
      SemWaitStatus(k0);
    case SemPostCall(fd) =>
      EnterKeeps(k, CALL_SEMPOST, [fd]);
      var k0 := Enter(k, CALL_SEMPOST, [fd]).value;
      assert Lookup(k0, fd) == Lookup(k, fd);
      SemPostStatus(k0);
  }

  /** The process that runs after a step is marked as running exactly when the scheduler or exit has chosen it, or
      when it went on running and was marked so before. */
  lemma MarkedExactly(k: K, e: Event, k1: K)
    requires Inv(k) && Follows(k, e, k1) && !(e.SleepCall? && k.ready == [])
    ensures k1.running in k1.procs && (k1.procs[k1.running].status == Running <==> MarksRunning(k, e))
  {
    hide Inv, Step, WouldBlock, PostHandsOff;
    RunningStatus(k, e, k1);
    InvParts(k);
    FiredSome(k, k.now + 1);
    FiredSome(k, k.now);
  }

  lemma FiredSome(k: K, now: int)
    requires TimerInv(k)
    ensures ElapsedPids(k.timers, now) != [] <==> exists t :: t in k.timers && t.awake <= now
  {
    if k.timers != [] { assert k.timers[0] in k.timers; }
    if t :| t in k.timers && t.awake <= now {
      var i :| 0 <= i < |k.timers| && k.timers[i] == t;
      assert k.timers[0].awake <= t.awake;
    }
  }
}
