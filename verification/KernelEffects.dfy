/** What each step does to the ready queue, and to the processor. */
module KernelEffects {
  import opened Seqs
  import opened KernelState
  import opened KernelInvariant
  import opened KernelMoves
  import opened KernelSemMoves
  import opened KernelSteps

  // ---- the wake-up loop in closed form

  /** The owners of the timers that have fired, in timer order: the timers are sorted, so these are a prefix. */
  function ElapsedPids(ts: seq<Timer>, now: int): seq<Pid> {
    if ts == [] || ts[0].awake > now then [] else [ts[0].pid] + ElapsedPids(ts[1..], now)
  }

  /** In a sorted list the prefix that has fired is everything that has fired. */
  lemma {:induction false} ElapsedExactly(ts: seq<Timer>, now: int)
    requires TimerOrder(ts)
    ensures |ElapsedPids(ts, now)| <= |ts|
    ensures forall i :: 0 <= i < |ts| ==> (ts[i].awake <= now <==> i < |ElapsedPids(ts, now)|)
    ensures forall i :: 0 <= i < |ElapsedPids(ts, now)| ==> ElapsedPids(ts, now)[i] == ts[i].pid
  {
    if ts != [] && ts[0].awake <= now {
      ElapsedExactly(ts[1..], now);
      forall i | 0 <= i < |ts| ensures ts[i].awake <= now <==> i < |ElapsedPids(ts, now)| {
        if i > 0 { assert ts[i] == ts[1..][i - 1]; }
      }
    } else if ts != [] {
      assert forall i :: 0 < i < |ts| ==> ts[0].awake <= ts[i].awake;
    }
  }

  lemma WakeFirstEffect(k: K, at: nat)
    requires Inv(k) && at <= |k.ready| && Elapsed(k)
    ensures WakeFirst(k, at).Ok? && Inv(WakeFirst(k, at).value)
    ensures var r, p := WakeFirst(k, at).value, k.timers[0].pid;
            && r.ready == k.ready[..at] + [p] + k.ready[at..] && r.timers == k.timers[1..]
            && (forall q :: q in r.waiting <==> q in k.waiting && q != p)
            && r.running == k.running && r.now == k.now
  {
    hide Inv, SchedInv, ReasonInv, TimerInv, DescInv, FamilyInv, PoolInv;
    WakeMove(k, at);
    InvParts(k);
    FirstSleeper(k);
    WakeSched(k, at);
  }

  /** The wake-up loop puts the owners of all fired timers, in timer order, in front of the ready queue, takes
      exactly them off the waiting list and exactly their timers off the timer list. */
  lemma {:induction false} WakeEffect(k: K, at: nat)
    requires Inv(k) && at <= |k.ready|
    ensures WakeElapsed(k, at).Ok?
    ensures var r := WakeElapsed(k, at).value;
            var w := ElapsedPids(k.timers, k.now);
            && r.ready == k.ready[..at] + w + k.ready[at..]
            && |w| <= |k.timers| && r.timers == k.timers[|w|..]
            && (forall p :: p in r.waiting <==> p in k.waiting && p !in w)
            && r.running == k.running && r.now == k.now
    decreases |k.timers|
  {
    hide Inv, WakeFirst;
    if Elapsed(k) {
      WakeFirstEffect(k, at);
      var k1 := WakeFirst(k, at).value;
      WakeEffect(k1, at + 1);
      var p := k.timers[0].pid;
      var w := ElapsedPids(k.timers, k.now);
      assert w == [p] + ElapsedPids(k1.timers, k1.now);
      PutBehind(k.ready, at, p);
      assert k1.timers[|w| - 1..] == k.timers[|w|..];
    } else {
      assert k.ready[..at] + [] + k.ready[at..] == k.ready;
    }
  }

  lemma PutBehind(s: seq<Pid>, at: nat, p: Pid)
    requires at <= |s|
    ensures var t := s[..at] + [p] + s[at..]; t[..at + 1] == s[..at] + [p] && t[at + 1..] == s[at..]
  {
  }

  // ---- queue effects

  datatype Effect =
    | Quiet
    | Born(pid: Pid)
    | Popped
    | HandedOff(pid: Pid)
    | Replaced(pid: Pid)
    | Rotated(woken: seq<Pid>)
    | Halted

  /** The post finds a process blocked on the semaphore. */
  ghost predicate PostHandsOff(k: K, fd: int) {
    && Lookup(k, fd).Ok? && Lookup(k, fd).value.Some?
    && var d := Lookup(k, fd).value.value;
       k.descs[d].sem in k.sems && k.sems[k.descs[d].sem].count < 0
  }

  /** The first process blocked on the semaphore that `fd` names. */
  ghost function PostHead(k: K, fd: int): Pid
    requires PostHandsOff(k, fd)
  {
    var s := k.sems[k.descs[Lookup(k, fd).value.value].sem];
    if s.waitingDescs != [] then OwnerOf(k, s.waitingDescs[0]) else NULL
  }

  /** The process behind a semaphore's list node. */
  function OwnerOf(k: K, q: Ref): Pid {
    if q in k.ptrs && k.ptrs[q] in k.descs then k.descs[k.ptrs[q]].pid else NULL
  }

  ghost function EffectOf(k: K, e: Event): Effect
    requires k.running in k.procs
  {
    match e
    case TickEvent => Rotated(ElapsedPids(k.timers, k.now + 1))
    case PreemptCall => Rotated(ElapsedPids(k.timers, k.now))
    case SpawnCall => Born(k.lastPid)
    case ExitCall(_) => if WouldBlock(k, e) then Popped else Replaced(k.procs[k.running].parent)
    case WaitCall(_) => if WouldBlock(k, e) then Popped else Quiet
    case SleepCall(_) => if k.ready == [] then Halted else Popped
    case SemWaitCall(_) => if WouldBlock(k, e) then Popped else Quiet
    case SemPostCall(fd) => if PostHandsOff(k, fd) then HandedOff(PostHead(k, fd)) else Quiet
    case _ => Quiet
  }

  /** Who an effect takes off the waiting list. */
  ghost predicate Wakes(f: Effect, p: Pid) {
    match f
    case HandedOff(q) => p == q
    case Replaced(q) => p == q
    case Rotated(w) => p in w
    case _ => false
  }

  /** The ready queue, the processor and the waiting list after an effect. */
  ghost predicate Shows(k: K, f: Effect, k1: K) {
    && (forall p :: p in k.waiting ==> (p in k1.waiting <==> !Wakes(f, p)))
    && (forall p :: p in k1.waiting ==> p in k.waiting || p == k.running)
    && match f {
         case Quiet => k1.ready == k.ready && k1.running == k.running
         case Born(p) => k1.ready == k.ready + [p] && k1.running == k.running
         case Popped => k.ready != [] && k1.ready == k.ready[1..] && k1.running == k.ready[0]
         case HandedOff(p) => k1.ready == k.ready + [k.running] && k1.running == p && p in k.waiting
         case Replaced(p) => k1.ready == k.ready && k1.running == p && p in k.waiting
         case Rotated(w) =>
           var all := w + k.ready;
           if all == [] then k1.ready == [] && k1.running == k.running
           else k1.ready == all[1..] + [k.running] && k1.running == all[0]
         case Halted => k.ready == [] && k1.ready == [] && k1.running == NULL
       }
  }

  lemma RotateEffect(k: K)
    requires Inv(k) && k.running in k.procs
    ensures Schedule(k).Ok? && Shows(k, Rotated(ElapsedPids(k.timers, k.now)), Schedule(k).value)
  {
    hide Inv, WakeElapsed, ElapsedPids;
    ScheduleKeeps(k);
    WakeEffect(k, 0);
    var k1 := WakeElapsed(k, 0).value;
    var all := ElapsedPids(k.timers, k.now) + k.ready;
    assert k1.ready == all;
    if all != [] {
      WakeKeeps(k, 0);
      YieldMove(k1);
      assert (all + [k.running])[1..] == all[1..] + [k.running];
    }
  }

  lemma WaitingDistinct(k: K, p: Pid)
    requires SchedInv(k) && p in k.waiting
    ensures forall q :: q in Without(k.waiting, p) <==> q in k.waiting && q != p
  {
    WithoutMembers(k.waiting, p);
  }

  lemma SemWaitEffect(k: K)
    requires Inv(k) && k.running in k.procs && k.procs[k.running].call == CALL_SEMWAIT && SemWait(k).Ok?
    ensures Shows(k, if NoPermit(k, k.procs[k.running].arg0) then Popped else Quiet, SemWait(k).value)
  {
    hide SchedInv, ReasonInv, TimerInv, DescInv, FamilyInv, PoolInv;
    var fd := k.procs[k.running].arg0;
    LookupWorks(k, fd);
    match Lookup(k, fd).value
    case None =>
    case Some(d) => OpenNode(k, d);
  }

  lemma SemPostEffect(k: K)
    requires Inv(k) && k.running in k.procs && SemPost(k).Ok?
    ensures var fd := k.procs[k.running].arg0;
            Shows(k, if PostHandsOff(k, fd) then HandedOff(PostHead(k, fd)) else Quiet, SemPost(k).value)
  {
    hide SchedInv, ReasonInv, TimerInv, DescInv, FamilyInv, PoolInv;
    var fd := k.procs[k.running].arg0;
    LookupWorks(k, fd);
    match Lookup(k, fd).value
    case None =>
    case Some(d) =>
      OpenNode(k, d);
      if PostHandsOff(k, fd) { WaitingDistinct(k, PostHead(k, fd)); }
  }

  lemma WaitEffect(k: K)
    requires Inv(k) && k.running in k.procs && k.procs[k.running].call == CALL_WAIT && Wait(k).Ok?
    ensures Shows(k, if NoDeadChild(k, k.procs[k.running].arg0) then Popped else Quiet, Wait(k).value)
  {
    hide SchedInv, ReasonInv, TimerInv, DescInv, FamilyInv, PoolInv;
    ChildrenExist(k);
  }

  lemma ExitEffect(k: K)
    requires Inv(k) && CleanExit(k) && Exit(k).Ok?
    ensures k.procs[k.running].parent in k.procs
    ensures Shows(k, if ParentAwaits(k, k.running) then Replaced(k.procs[k.running].parent) else Popped, Exit(k).value)
  {
    hide SchedInv, ReasonInv, TimerInv, DescInv, FamilyInv, PoolInv;
    ParentFacts(k);
    if ParentAwaits(k, k.running) { WaitingDistinct(k, k.procs[k.running].parent); }
  }

  lemma EnteredExit(k: K, v: int)
    requires Inv(k) && CleanExit(k) && Step(k, ExitCall(v)).Ok?
    ensures Shows(k, EffectOf(k, ExitCall(v)), Step(k, ExitCall(v)).value)
  {
    hide Inv, SchedInv, FamilyInv, Exit;
    EnterKeeps(k, CALL_EXIT, [v]);
    InvParts(k);
    ParentFacts(k);
    ExitEffect(Enter(k, CALL_EXIT, [v]).value);
  }

  lemma EnteredWait(k: K, p: int)
    requires Inv(k) && k.running in k.procs && Step(k, WaitCall(p)).Ok?
    ensures Shows(k, EffectOf(k, WaitCall(p)), Step(k, WaitCall(p)).value)
  {
    hide Inv, Wait, NoDeadChild;
    EnterKeeps(k, CALL_WAIT, [p, 0]);
    var k1 := Enter(k, CALL_WAIT, [p, 0]).value;
    ScanSame(k, k1, p);
    WaitEffect(k1);
  }

  lemma EnteredSleep(k: K, n: int)
    requires Inv(k) && k.running in k.procs
    ensures Step(k, SleepCall(n)).Ok? && Shows(k, EffectOf(k, SleepCall(n)), Step(k, SleepCall(n)).value)
  {
    hide Inv, SchedInv, ReasonInv, TimerInv, DescInv, FamilyInv, PoolInv;
    EnterKeeps(k, CALL_SLEEP, [n]);
    var k1 := Enter(k, CALL_SLEEP, [n]).value;
    InvParts(k1);
    NoTimerYet(k1);
    TimerFree(k1);
    ParkForTimer(k1);
  }

  lemma OpenEffect(k: K)
    requires k.running in k.procs && SemOpen(k).Ok?
    ensures Shows(k, Quiet, SemOpen(k).value)
  {
    hide OpenDesc;
    var me := k.procs[k.running];
    if me.arg1 >= 0 && me.arg0 >= 0 {
      match ById(k.sems, k.semList, me.arg0)
      case Some(s) => OpenDescEffect(k, s);
      case None => if k.freeSems != [] { OpenDescEffect(AllocSem(k, me.arg0, me.arg1), k.nextRef); }
    }
  }

  lemma OpenDescEffect(k: K, s: Ref)
    requires k.running in k.procs && OpenDesc(k, s).Ok?
    ensures Shows(k, Quiet, OpenDesc(k, s).value)
  {
  }

  lemma CloseEffect(k: K)
    requires k.running in k.procs && SemClose(k).Ok?
    ensures Shows(k, Quiet, SemClose(k).value)
  {
  }

  lemma EnteredOpenClose(k: K, e: Event)
    requires k.running in k.procs && (e.SemOpenCall? || e.SemCloseCall?) && Step(k, e).Ok?
    ensures Shows(k, Quiet, Step(k, e).value)
  {
    hide SemOpen, SemClose;
    match e
    case SemOpenCall(id, c) => OpenEffect(Enter(k, CALL_SEMOPEN, [id, c]).value);
    case SemCloseCall(fd) => CloseEffect(Enter(k, CALL_SEMCLOSE, [fd]).value);
  }

  lemma EnteredSem(k: K, e: Event)
    requires Inv(k) && k.running in k.procs && (e.SemWaitCall? || e.SemPostCall?) && Step(k, e).Ok?
    ensures Shows(k, EffectOf(k, e), Step(k, e).value)
  {
    hide Inv, SemWait, SemPost;
    if e.SemWaitCall? {
      EnterKeeps(k, CALL_SEMWAIT, [e.fd]);
      var k1 := Enter(k, CALL_SEMWAIT, [e.fd]).value;
      assert Lookup(k1, e.fd) == Lookup(k, e.fd);
      SemWaitEffect(k1);
    } else {
      EnterKeeps(k, CALL_SEMPOST, [e.fd]);
      var k1 := Enter(k, CALL_SEMPOST, [e.fd]).value;
      assert Lookup(k1, e.fd) == Lookup(k, e.fd);
      SemPostEffect(k1);
    }
  }

  /** Every step moves processes through the ready queue as its effect says. */
  lemma StepEffect(k: K, e: Event)
    requires Inv(k) && k.running in k.procs && (e.ExitCall? ==> CleanExit(k)) && Step(k, e).Ok?
    ensures Shows(k, EffectOf(k, e), Step(k, e).value)
  {
    hide Inv, Schedule, Exit, Wait, Sleep, SemOpen, SemClose, SemWait, SemPost, WouldBlock, PostHandsOff;
    match e
    case TickEvent =>
      ClockMove(k);
      RotateEffect(k.(now := k.now + 1));
    case PreemptCall =>
      EnterKeeps(k, CALL_PREEMPT, []);
      RotateEffect(Enter(k, CALL_PREEMPT, []).value);
    case SpawnCall =>
    case ExitCall(v) => EnteredExit(k, v);
    case WaitCall(p) => EnteredWait(k, p);
    case SleepCall(n) => EnteredSleep(k, n);
    case SemOpenCall(_, _) => EnteredOpenClose(k, e);
    case SemCloseCall(_) => EnteredOpenClose(k, e);
    case SemWaitCall(_) => EnteredSem(k, e);
    case SemPostCall(_) => EnteredSem(k, e);
  }
}
