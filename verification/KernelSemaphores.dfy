/** A kernel semaphore, seen through its count and the processes on its waiting list, behaves as the semaphore of
    `HandoffSemaphore`: wait and post act on it, and no other system call or tick does. */
module KernelSemaphores {
  import opened Seqs
  import opened KernelState
  import opened KernelInvariant
  import opened KernelMoves
  import opened KernelSemMoves
  import opened KernelSteps
  import opened KernelEffects
  import H = HandoffSemaphore

  function PidsOf(k: K, qs: seq<Ref>): seq<Pid> {
    seq(|qs|, i requires 0 <= i < |qs| => OwnerOf(k, qs[i]))
  }

  function View(k: K, s: Ref): H.Sem
    requires s in k.sems
  {
    H.Sem(k.sems[s].count, PidsOf(k, k.sems[s].waitingDescs))
  }

  /** The semaphore `fd` names in the caller's table. */
  ghost predicate Names(k: K, fd: int, s: Ref) {
    && Lookup(k, fd).Ok? && Lookup(k, fd).value.Some?
    && k.descs[Lookup(k, fd).value.value].sem == s
  }

  /** The semaphore operations the step performs on `s`: none or one. */
  ghost function OpsOn(k: K, e: Event, s: Ref): seq<H.Op> {
    match e
    case SemWaitCall(fd) => if Names(k, fd, s) then [H.WaitBy(k.running)] else []
    case SemPostCall(fd) => if Names(k, fd, s) then [H.Post] else []
    case _ => []
  }

  lemma ViewFrame(k: K, k1: K, s: Ref)
    requires s in k.sems && s in k1.sems && k1.sems[s].count == k.sems[s].count
    requires k1.sems[s].waitingDescs == k.sems[s].waitingDescs
    requires forall q :: q in k.sems[s].waitingDescs ==> OwnerOf(k1, q) == OwnerOf(k, q)
    ensures View(k1, s) == View(k, s)
  {
    assert PidsOf(k1, k1.sems[s].waitingDescs) == PidsOf(k, k.sems[s].waitingDescs);
  }

  lemma PidsAppend(k: K, qs: seq<Ref>, q: Ref)
    ensures PidsOf(k, qs + [q]) == PidsOf(k, qs) + [OwnerOf(k, q)]
    ensures qs != [] ==> PidsOf(k, qs)[1..] == PidsOf(k, qs[1..]) && PidsOf(k, qs)[0] == OwnerOf(k, qs[0])
  {
  }

  /** The count never says more than the waiting list, in either view. */
  lemma ViewBalanced(k: K, s: Ref)
    requires DescInv(k) && s in k.sems
    ensures H.Balanced(View(k, s))
    ensures NoDup(View(k, s).waiters) && forall p :: p in View(k, s).waiters ==> p in k.waiting
  {
    var w := k.sems[s].waitingDescs;
    assert SemOk(k, s);
    forall i, j | 0 <= i < j < |w| ensures OwnerOf(k, w[i]) != OwnerOf(k, w[j]) {
      OneBlockEach(k, s, w[i], s, w[j]);
    }
    forall i | 0 <= i < |w| ensures OwnerOf(k, w[i]) in k.waiting {
      var q := w[i];
      assert q in w && WaitsThrough(k, q);
    }
  }

  // ---- wait and post

  lemma WaitView(k: K, s: Ref)
    requires Inv(k) && k.running in k.procs && k.procs[k.running].call == CALL_SEMWAIT && s in k.sems && SemWait(k).Ok?
    ensures s in SemWait(k).value.sems
    ensures View(SemWait(k).value, s) ==
            if Names(k, k.procs[k.running].arg0, s) then H.Wait(View(k, s), k.running) else View(k, s)
  {
    hide SchedInv, ReasonInv, TimerInv, DescInv, FamilyInv, PoolInv;
    var fd := k.procs[k.running].arg0;
    LookupWorks(k, fd);
    var k1 := SemWait(k).value;
    match Lookup(k, fd).value
    case None => ViewFrame(k, k1, s);
    case Some(d) =>
      OpenNode(k, d);
      if k.descs[d].sem != s || k.sems[s].count > 0 {
        ViewFrame(SetSem(k, s, k1.sems[s]), k1, s);
        assert PidsOf(SetSem(k, s, k1.sems[s]), k.sems[s].waitingDescs) == PidsOf(k, k.sems[s].waitingDescs);
      } else {
        PidsAppend(k, k.sems[s].waitingDescs, k.descs[d].ptr);
        assert PidsOf(k1, k1.sems[s].waitingDescs) == PidsOf(k, k1.sems[s].waitingDescs);
      }
  }

  lemma PostView(k: K, s: Ref)
    requires Inv(k) && k.running in k.procs && s in k.sems && SemPost(k).Ok?
    ensures s in SemPost(k).value.sems
    ensures View(SemPost(k).value, s) ==
            if Names(k, k.procs[k.running].arg0, s) then H.PostTo(View(k, s)) else View(k, s)
  {
    hide SchedInv, ReasonInv, TimerInv, DescInv, FamilyInv, PoolInv;
    var fd := k.procs[k.running].arg0;
    LookupWorks(k, fd);
    var k1 := SemPost(k).value;
    match Lookup(k, fd).value
    case None => ViewFrame(k, k1, s);
    case Some(d) =>
      OpenNode(k, d);
      assert PidsOf(k1, k1.sems[s].waitingDescs) == PidsOf(k, k1.sems[s].waitingDescs);
      if k.descs[d].sem == s {
        PidsAppend(k, k.sems[s].waitingDescs, 0);
      }
  }

  // ---- everything else

  /** What the other handlers leave alone: a semaphore that is still there, and the owners of its waiting nodes. */
  ghost predicate Untouched(k: K, k1: K, s: Ref) {
    s in k.sems && s in k1.sems ==>
      && k1.sems[s].count == k.sems[s].count && k1.sems[s].waitingDescs == k.sems[s].waitingDescs
      && forall q :: q in k.sems[s].waitingDescs ==> OwnerOf(k1, q) == OwnerOf(k, q)
  }

  lemma OpenDescView(k: K, t: Ref, s: Ref)
    requires k.running in k.procs && t in k.sems && s in k.sems && OpenDesc(k, t).Ok?
    requires forall q :: q in k.sems[s].waitingDescs ==>
               q in k.ptrs && q < k.nextRef && k.ptrs[q] in k.descs && k.ptrs[q] < k.nextRef
    ensures s in OpenDesc(k, t).value.sems && Untouched(k, OpenDesc(k, t).value, s)
  {
  }

  lemma OpenView(k: K, s: Ref)
    requires Inv(k) && k.running in k.procs && s in k.sems && SemOpen(k).Ok?
    ensures s in SemOpen(k).value.sems && Untouched(k, SemOpen(k).value, s)
  {
    hide SchedInv, ReasonInv, TimerInv, DescInv, FamilyInv, PoolInv, OpenDesc;
    FreshRefs(k);
    WaitingNodes(k, s);
    var me := k.procs[k.running];
    if me.arg0 >= 0 && me.arg1 >= 0 {
      match ById(k.sems, k.semList, me.arg0)
      case Some(t) => OpenDescView(k, t, s);
      case None =>
        if k.freeSems != [] { OpenDescView(AllocSem(k, me.arg0, me.arg1), k.nextRef, s); }
    }
  }

  lemma WaitingNodes(k: K, s: Ref)
    requires DescInv(k) && s in k.sems
    ensures forall q :: q in k.sems[s].waitingDescs ==>
              q in k.ptrs && q < k.nextRef && k.ptrs[q] in k.descs && k.ptrs[q] < k.nextRef
              && k.descs[k.ptrs[q]].ptr == q && k.descs[k.ptrs[q]].pid in k.waiting
  {
    assert SemOk(k, s);
    forall q | q in k.sems[s].waitingDescs
      ensures q in k.ptrs && q < k.nextRef && k.ptrs[q] in k.descs && k.ptrs[q] < k.nextRef
              && k.descs[k.ptrs[q]].ptr == q && k.descs[k.ptrs[q]].pid in k.waiting
    {
      assert WaitsThrough(k, q) && PtrOk(k, q) && DescOk(k, k.ptrs[q]);
    }
  }

  lemma CloseView(k: K, s: Ref)
    requires Inv(k) && k.running in k.procs && s in k.sems && SemClose(k).Ok?
    ensures Untouched(k, SemClose(k).value, s)
    ensures s !in SemClose(k).value.sems ==> k.sems[s].waitingDescs == []
  {
    hide SchedInv, ReasonInv, TimerInv, DescInv, FamilyInv, PoolInv;
    var fd := k.procs[k.running].arg0;
    LookupWorks(k, fd);
    match Lookup(k, fd).value
    case None =>
    case Some(d) =>
      CloseShape(k, d);
      OpenNode(k, d);
      WaitingNodes(k, s);
      RunningUnlinked(k);
      forall q | q in k.sems[s].waitingDescs ensures k.ptrs[q] != d && q != k.descs[d].ptr {}
  }

  lemma WakeSameSems(k: K, at: nat)
    requires WakeElapsed(k, at).Ok?
    ensures var r := WakeElapsed(k, at).value; r.sems == k.sems && r.ptrs == k.ptrs && r.descs == k.descs
    decreases |k.timers|
  {
    if Elapsed(k) && WakeFirst(k, at).Ok? {
      WakeSameSems(WakeFirst(k, at).value, at + 1);
    }
  }

  ghost predicate SameSemaphores(k: K, r: K) { r.sems == k.sems && r.ptrs == k.ptrs && r.descs == k.descs }

  lemma LeaveSameSems(k: K)
    requires k.running in k.procs && Leave(k).Ok?
    ensures SameSemaphores(k, Leave(k).value)
  {
  }

  lemma ScheduleSameSems(k: K)
    requires Schedule(k).Ok?
    ensures SameSemaphores(k, Schedule(k).value)
  {
    WakeSameSems(k, 0);
  }

  lemma WaitSameSems(k: K)
    requires Wait(k).Ok?
    ensures SameSemaphores(k, Wait(k).value)
  {
  }

  lemma OtherSameSems(k: K, e: Event)
    requires Step(k, e).Ok? && !e.SemOpenCall? && !e.SemCloseCall? && !e.SemWaitCall? && !e.SemPostCall?
    ensures SameSemaphores(k, Step(k, e).value)
  {
    hide Leave, Wait, Schedule, SemOpen, SemClose, SemWait, SemPost;
    match e
    case TickEvent => ScheduleSameSems(k.(now := k.now + 1));
    case PreemptCall => ScheduleSameSems(Enter(k, CALL_PREEMPT, []).value);
    case ExitCall(v) =>
      var k1 := Enter(k, CALL_EXIT, [v]).value;
      LeaveSameSems(Reparent(Valued(k1)).value);
    case WaitCall(p) => WaitSameSems(Enter(k, CALL_WAIT, [p, 0]).value);
    case _ =>
  }

  /** The step's operation, and nothing else, changes the semaphore; only a close that finds no process blocked
      makes it go away. */
  lemma SemStep(k: K, e: Event, s: Ref)
    requires Inv(k) && k.running in k.procs && (e.ExitCall? ==> CleanExit(k)) && Step(k, e).Ok? && s in k.sems
    ensures s in Step(k, e).value.sems ==> View(Step(k, e).value, s) == H.Exec(View(k, s), OpsOn(k, e, s))
    ensures s !in Step(k, e).value.sems ==> e.SemCloseCall? && View(k, s).waiters == []
  {
    hide Inv, SemWait, SemPost, SemOpen, SemClose;
    var r := Step(k, e).value;
    match e
    case SemWaitCall(fd) =>
      EnterKeeps(k, CALL_SEMWAIT, [fd]);
      var k1 := Enter(k, CALL_SEMWAIT, [fd]).value;
      assert Lookup(k1, fd) == Lookup(k, fd);
      ViewFrame(k, k1, s);
      WaitView(k1, s);
      assert OpsOn(k, e, s)[..0] == [];
    case SemPostCall(fd) =>
      EnterKeeps(k, CALL_SEMPOST, [fd]);
      var k1 := Enter(k, CALL_SEMPOST, [fd]).value;
      assert Lookup(k1, fd) == Lookup(k, fd);
      ViewFrame(k, k1, s);
      PostView(k1, s);
      assert OpsOn(k, e, s)[..0] == [];
    case SemOpenCall(id, c) =>
      EnterKeeps(k, CALL_SEMOPEN, [id, c]);
      var k1 := Enter(k, CALL_SEMOPEN, [id, c]).value;
      OpenView(k1, s);
      ViewFrame(k, r, s);
    case SemCloseCall(fd) =>
      EnterKeeps(k, CALL_SEMCLOSE, [fd]);
      var k1 := Enter(k, CALL_SEMCLOSE, [fd]).value;
      CloseView(k1, s);
      if s in r.sems { ViewFrame(k, r, s); }
    case _ =>
      OtherSameSems(k, e);
      ViewFrame(k, r, s);
  }

  lemma OpenDescBorn(k: K, t: Ref)
    requires k.running in k.procs && t in k.sems && OpenDesc(k, t).Ok?
    ensures var r := OpenDesc(k, t).value;
            && r.sems.Keys == k.sems.Keys && r.sems[t].id == k.sems[t].id && r.sems[t].count == k.sems[t].count
            && r.sems[t].waitingDescs == k.sems[t].waitingDescs
  {
  }

  lemma BornOpen(k: K, s: Ref)
    requires Inv(k) && k.running in k.procs && SemOpen(k).Ok?
    requires s !in k.sems && s in SemOpen(k).value.sems
    ensures var me, r := k.procs[k.running], SemOpen(k).value;
            me.arg1 >= 0 && View(r, s) == H.Sem(me.arg1, []) && r.sems[s].id == me.arg0
  {
    hide Inv, SemOpen, OpenDesc;
    SemOpenShape(k);
    NoStaleWaiters(k);
    assert PidsOf(SemOpen(k).value, []) == [];
    var me := k.procs[k.running];
    if me.arg0 >= 0 && me.arg1 >= 0 {
      match ById(k.sems, k.semList, me.arg0)
      case Some(t) => OpenDescBorn(k, t);
      case None => if k.freeSems != [] { OpenDescBorn(AllocSem(k, me.arg0, me.arg1), k.nextRef); }
    }
  }

  /** A semaphore comes into being only by an open, with exactly the count asked for and nobody waiting. */
  lemma SemBorn(k: K, e: Event, s: Ref)
    requires Inv(k) && k.running in k.procs && (e.ExitCall? ==> CleanExit(k)) && Step(k, e).Ok?
    requires s !in k.sems && s in Step(k, e).value.sems
    ensures e.SemOpenCall? && e.count >= 0 && View(Step(k, e).value, s) == H.Sem(e.count, [])
    ensures Step(k, e).value.sems[s].id == e.id
  {
    hide Inv, SemOpen, SemWait, SemPost, SemClose;
    match e
    case SemWaitCall(fd) => SemKeysSame(k, e);
    case SemPostCall(fd) => SemKeysSame(k, e);
    case SemOpenCall(id, c) =>
      EnterKeeps(k, CALL_SEMOPEN, [id, c]);
      BornOpen(Enter(k, CALL_SEMOPEN, [id, c]).value, s);
    case SemCloseCall(fd) => SemKeysSame(k, e);
    case _ => OtherSameSems(k, e);
  }

  /** The field `Semaphore_alloc` forgets to initialise is an empty list anyway. */
  lemma NoStaleWaiters(k: K)
    requires Inv(k)
    ensures k.freeSems != [] ==> k.freeSems[0] == []
    ensures k.freeDescs == k.freePtrs
  {
    hide SchedInv, ReasonInv, TimerInv, DescInv, FamilyInv;
  }

  lemma WaitKeys(k: K)
    requires SemWait(k).Ok?
    ensures SemWait(k).value.sems.Keys == k.sems.Keys
  {
  }

  lemma PostKeys(k: K)
    requires SemPost(k).Ok?
    ensures SemPost(k).value.sems.Keys == k.sems.Keys
  {
  }

  lemma CloseKeys(k: K)
    requires SemClose(k).Ok?
    ensures SemClose(k).value.sems.Keys <= k.sems.Keys
  {
  }

  lemma SemKeysSame(k: K, e: Event)
    requires Step(k, e).Ok? && (e.SemCloseCall? || e.SemWaitCall? || e.SemPostCall?)
    ensures Step(k, e).value.sems.Keys <= k.sems.Keys
  {
    hide SemWait, SemPost, SemClose;
    match e
    case SemWaitCall(fd) => WaitKeys(Enter(k, CALL_SEMWAIT, [fd]).value);
    case SemPostCall(fd) => PostKeys(Enter(k, CALL_SEMPOST, [fd]).value);
    case SemCloseCall(fd) => CloseKeys(Enter(k, CALL_SEMCLOSE, [fd]).value);
    case _ =>
  }
}
