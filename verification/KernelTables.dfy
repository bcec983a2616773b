/** A process's semaphore numbers mean the same semaphores until it closes them itself. */
module KernelTables {
  import opened Outcomes
  import opened Seqs
  import opened KernelState
  import opened KernelInvariant
  import opened KernelSemMoves
  import opened KernelSteps
  import opened KernelSemaphores
  import opened KernelRuns

  /** Process `p` has the semaphore `s` open under the number `fd`. */
  ghost predicate HasOpen(k: K, p: Pid, fd: int, s: Ref) {
    p in k.procs && exists d :: d in k.procs[p].semDescs && d in k.descs && k.descs[d].fd == fd && k.descs[d].sem == s
  }

  /** For the running process that is what a lookup finds. */
  lemma HasOpenNames(k: K, fd: int, s: Ref)
    requires Inv(k) && k.running in k.procs
    ensures HasOpen(k, k.running, fd, s) <==> Names(k, fd, s)
  {
    hide SchedInv, ReasonInv, TimerInv, FamilyInv, PoolInv;
    LookupWorks(k, fd);
    assert ProcDescsOk(k, k.running);
    if HasOpen(k, k.running, fd, s) {
      var d :| d in k.procs[k.running].semDescs && d in k.descs && k.descs[d].fd == fd && k.descs[d].sem == s;
      assert Lookup(k, fd).value != None;
      var e := Lookup(k, fd).value.value;
      assert e in k.procs[k.running].semDescs && k.descs[e].fd == fd;
      assert d == e;
    }
    if Names(k, fd, s) {
      var d := Lookup(k, fd).value.value;
      assert d in k.procs[k.running].semDescs && d in k.descs && k.descs[d].fd == fd && k.descs[d].sem == s;
    }
  }

  /** No semaphore has this id yet. */
  ghost predicate Unused(k: K, id: int) { forall s :: s in k.sems ==> k.sems[s].id != id }

  lemma NotFound(k: K, id: int)
    requires Unused(k, id) && AllIn(k.semList, k.sems)
    ensures ById(k.sems, k.semList, id) == None
  {
    match ById(k.sems, k.semList, id)
    case None =>
    case Some(s) =>
  }

  /** The table only grows at its end, and its entries stay as they are. */
  ghost predicate KeepsTable(k: K, k1: K, p: Pid) {
    && p in k.procs && p in k1.procs && k.procs[p].semDescs <= k1.procs[p].semDescs
    && forall d :: d in k.procs[p].semDescs && d in k.descs ==> d in k1.descs && k1.descs[d] == k.descs[d]
  }

  lemma KeepsTableOpen(k: K, k1: K, p: Pid, fd: int, s: Ref)
    requires KeepsTable(k, k1, p) && HasOpen(k, p, fd, s)
    ensures HasOpen(k1, p, fd, s)
  {
  }

  /** Same processes with the same tables, and the same descriptors. */
  ghost predicate SameTables(k: K, k1: K) {
    && k1.procs.Keys == k.procs.Keys && k1.descs == k.descs
    && forall p :: p in k.procs ==> k1.procs[p].semDescs == k.procs[p].semDescs
  }

  lemma WakeTables(k: K, at: nat)
    requires WakeElapsed(k, at).Ok?
    ensures SameTables(k, WakeElapsed(k, at).value)
    decreases |k.timers|
  {
    if Elapsed(k) && WakeFirst(k, at).Ok? { WakeTables(WakeFirst(k, at).value, at + 1); }
  }

  lemma ScheduleTables(k: K)
    requires Schedule(k).Ok?
    ensures SameTables(k, Schedule(k).value)
  {
    hide WakeElapsed;
    WakeTables(k, 0);
  }

  lemma SemWaitTables(k: K)
    requires SemWait(k).Ok?
    ensures SameTables(k, SemWait(k).value)
  {
  }

  lemma SemPostTables(k: K)
    requires SemPost(k).Ok?
    ensures SameTables(k, SemPost(k).value)
  {
  }

  lemma OpenDescTables(k: K, s: Ref, p: Pid)
    requires DescInv(k) && k.running in k.procs && p in k.procs && OpenDesc(k, s).Ok?
    ensures KeepsTable(k, OpenDesc(k, s).value, p)
  {
    hide DescInv;
    FreshRefs(k);
  }

  lemma SemOpenTables(k: K, p: Pid)
    requires Inv(k) && k.running in k.procs && p in k.procs && SemOpen(k).Ok?
    ensures KeepsTable(k, SemOpen(k).value, p)
  {
    hide Inv, SchedInv, ReasonInv, TimerInv, DescInv, FamilyInv, PoolInv, OpenDesc, SemOpen;
    SemOpenShape(k);
    InvParts(k);
    var me := k.procs[k.running];
    if me.arg0 >= 0 && me.arg1 >= 0 {
      match ById(k.sems, k.semList, me.arg0)
      case Some(s) => OpenDescTables(k, s, p);
      case None =>
        if k.freeSems != [] {
          var k1 := AllocSem(k, me.arg0, me.arg1);
          InvParts(k1);
          OpenDescTables(k1, k.nextRef, p);
        }
    }
  }

  lemma SemCloseTables(k: K, p: Pid)
    requires Inv(k) && k.running in k.procs && p in k.procs && p != k.running && SemClose(k).Ok?
    ensures KeepsTable(k, SemClose(k).value, p)
  {
    hide SchedInv, ReasonInv, TimerInv, FamilyInv, PoolInv;
    var fd := k.procs[k.running].arg0;
    LookupWorks(k, fd);
    assert ProcDescsOk(k, p) && ProcDescsOk(k, k.running);
    match Lookup(k, fd).value
    case None =>
    case Some(d) =>
      hide DescInv;
      InvParts(k);
      CloseShape(k, d);
  }

  lemma SpawnTables(k: K, p: Pid)
    requires SchedInv(k) && k.running in k.procs && p in k.procs && Spawn(k).Ok?
    ensures KeepsTable(k, Spawn(k).value, p)
  {
  }

  lemma WaitTables(k: K, p: Pid)
    requires Inv(k) && k.running in k.procs && k.procs[k.running].call == CALL_WAIT && Wait(k).Ok?
    requires p in k.procs && k.procs[p].semDescs != []
    ensures KeepsTable(k, Wait(k).value, p)
  {
    hide Inv, Wait, Reap, ScanChildren;
    WaitShape(k);
    var me := k.procs[k.running];
    if me.children != [] {
      var c := ScanChildren(k, me.children, me.arg0);
      if k.procs[c].status == Zombie {
        DeadHasNone(k, c);
        ReapTables(k, c, p);
      }
    }
  }

  /** A zombie has no semaphore open. */
  lemma DeadHasNone(k: K, c: Pid)
    requires Inv(k) && c in k.zombies
    ensures c in k.procs && k.procs[c].semDescs == []
  {
    assert Placed(k, c, Zombie);
  }

  lemma ReapTables(k: K, c: Pid, p: Pid)
    requires k.running in k.procs && c in k.procs && p in k.procs && p != c && Reap(k, c).Ok?
    ensures KeepsTable(k, Reap(k, c).value, p)
  {
  }

  lemma ExitTables(k: K, p: Pid)
    requires CleanExit(k) && p in k.procs && p != k.running && Exit(k).Ok?
    ensures KeepsTable(k, Exit(k).value, p)
  {
  }

  lemma SleepTables(k: K)
    requires Sleep(k).Ok?
    ensures SameTables(k, Sleep(k).value)
  {
  }

  /** No step takes an open semaphore from a process, except the process's own close. */
  lemma StepTables(k: K, e: Event, k1: K, p: Pid, fd: int, s: Ref)
    requires Inv(k) && Follows(k, e, k1) && HasOpen(k, p, fd, s) && (e.SemCloseCall? ==> p != k.running)
    ensures HasOpen(k1, p, fd, s)
  {
    hide Inv, Schedule, Exit, Wait, Sleep, SemOpen, SemClose, SemWait, SemPost, Spawn;
    match e
    case TickEvent => ScheduleTables(k.(now := k.now + 1));
    case PreemptCall => ScheduleTables(Enter(k, CALL_PREEMPT, []).value);
    case SpawnCall =>
      EnterKeeps(k, CALL_SPAWN, [0, 0]);
      var k0 := Enter(k, CALL_SPAWN, [0, 0]).value;
      InvParts(k0);
      SpawnTables(k0, p);
      KeepsTableOpen(k, k1, p, fd, s);
    case ExitCall(v) =>
      ExitTables(Enter(k, CALL_EXIT, [v]).value, p);
      KeepsTableOpen(k, k1, p, fd, s);
    case WaitCall(c) =>
      EnterKeeps(k, CALL_WAIT, [c, 0]);
      WaitTables(Enter(k, CALL_WAIT, [c, 0]).value, p);
      KeepsTableOpen(k, k1, p, fd, s);
    case SleepCall(n) => SleepTables(Enter(k, CALL_SLEEP, [n]).value);
    case SemOpenCall(id, c) =>
      EnterKeeps(k, CALL_SEMOPEN, [id, c]);
      SemOpenTables(Enter(k, CALL_SEMOPEN, [id, c]).value, p);
      KeepsTableOpen(k, k1, p, fd, s);
    case SemCloseCall(f) =>
      EnterKeeps(k, CALL_SEMCLOSE, [f]);
      SemCloseTables(Enter(k, CALL_SEMCLOSE, [f]).value, p);
      KeepsTableOpen(k, k1, p, fd, s);
    case SemWaitCall(f) => SemWaitTables(Enter(k, CALL_SEMWAIT, [f]).value);
    case SemPostCall(f) => SemPostTables(Enter(k, CALL_SEMPOST, [f]).value);
  }

  /** What a process has open exists. */
  lemma OpenExists(k: K, p: Pid, fd: int, s: Ref)
    requires Inv(k) && HasOpen(k, p, fd, s)
    ensures s in k.sems
  {
    hide SchedInv, ReasonInv, TimerInv, FamilyInv, PoolInv;
    var d :| d in k.procs[p].semDescs && d in k.descs && k.descs[d].fd == fd && k.descs[d].sem == s;
    assert DescOk(k, d);
  }

  /** Close frees a semaphore exactly when the caller's descriptor was the last one, in any process, that refers
      to it. */
  lemma CloseFreesLast(k: K, fd: int, k1: K, s: Ref)
    requires Inv(k) && Follows(k, SemCloseCall(fd), k1) && s in k.sems
    ensures s !in k1.sems <==>
            Names(k, fd, s) && forall d :: d in k.descs && k.descs[d].sem == s ==> d == Lookup(k, fd).value.value
  {
    hide Inv, SemClose, SchedInv, ReasonInv, TimerInv, DescInv, FamilyInv, PoolInv, AfterClose, Lookup;
    StepInv(k, SemCloseCall(fd), k1);
    EnterKeeps(k, CALL_SEMCLOSE, [fd]);
    var k0 := Enter(k, CALL_SEMCLOSE, [fd]).value;
    InvParts(k0);
    LookupWorks(k0, fd);
    assert Lookup(k0, fd) == Lookup(k, fd) by { EnteredLookup(k, fd); }
    match Lookup(k0, fd).value
    case None => SemCloseMissing(k0);
    case Some(d) =>
      CloseShape(k0, d);
      ClosedSems(k0, d, s);
  }

  lemma EnteredLookup(k: K, fd: int)
    requires k.running in k.procs
    ensures Lookup(Enter(k, CALL_SEMCLOSE, [fd]).value, fd) == Lookup(k, fd)
  {
  }

  lemma FirstIn<T>(l: seq<T>)
    ensures l != [] ==> exists x :: x in l
  {
    if l != [] { assert l[0] in l; }
  }

  lemma ClosedSems(k: K, d: Ref, s: Ref)
    requires DescInv(k) && SchedInv(k) && k.running in k.procs && d in k.procs[k.running].semDescs && s in k.sems
    ensures d in k.descs && k.descs[d].sem in k.sems
    ensures s !in AfterClose(k, d).sems <==>
            k.descs[d].sem == s && forall e :: e in k.descs && k.descs[e].sem == s ==> e == d
  {
    OpenNode(k, d);
    hide SchedInv;
    var q := k.descs[d].ptr;
    assert SemOk(k, s);
    assert k.descs[d].sem == s ==> s in k.semList;
    if k.descs[d].sem == s {
      WithoutMembers(k.sems[s].descs, q);
      var rest := Without(k.sems[s].descs, q);
      if e :| e in k.descs && k.descs[e].sem == s && e != d {
        assert DescOk(k, e) && DescOk(k, d);
        assert k.descs[e].ptr in rest || k.descs[e].ptr in k.sems[s].waitingDescs;
      } else {
        forall r | r in rest ensures k.ptrs[r] == d && r == q { assert NodeOf(k, s, r) && PtrOk(k, r); }
        forall r | r in k.sems[s].waitingDescs ensures k.ptrs[r] == d && r == q {
          assert NodeOf(k, s, r) && PtrOk(k, r);
        }
        FirstIn(rest);
        FirstIn(k.sems[s].waitingDescs);
      }
    }
  }

  // ---- ids

  /** The semaphores that are still there have kept their ids. */
  ghost predicate SameIds(k: K, r: K) {
    forall s :: s in k.sems && s in r.sems ==> r.sems[s].id == k.sems[s].id
  }

  lemma WaitIds(k: K)
    requires SemWait(k).Ok?
    ensures SameIds(k, SemWait(k).value)
  {
  }

  lemma PostIds(k: K)
    requires SemPost(k).Ok?
    ensures SameIds(k, SemPost(k).value)
  {
  }

  lemma CloseIds(k: K)
    requires SemClose(k).Ok?
    ensures SameIds(k, SemClose(k).value)
  {
  }

  lemma OpenDescIds(k: K, s: Ref)
    requires k.running in k.procs && s in k.sems && OpenDesc(k, s).Ok?
    ensures SameIds(k, OpenDesc(k, s).value)
  {
  }

  lemma OpenIds(k: K)
    requires Inv(k) && k.running in k.procs && SemOpen(k).Ok?
    ensures SameIds(k, SemOpen(k).value)
  {
    hide SchedInv, ReasonInv, TimerInv, DescInv, FamilyInv, PoolInv, OpenDesc, SemOpen;
    SemOpenShape(k);
    FreshRefs(k);
    var me := k.procs[k.running];
    if me.arg0 >= 0 && me.arg1 >= 0 {
      match ById(k.sems, k.semList, me.arg0)
      case Some(s) => OpenDescIds(k, s);
      case None => if k.freeSems != [] { OpenDescIds(AllocSem(k, me.arg0, me.arg1), k.nextRef); }
    }
  }

  /** No step changes the id of a semaphore. */
  lemma StepIds(k: K, e: Event, k1: K)
    requires Inv(k) && Follows(k, e, k1)
    ensures SameIds(k, k1)
  {
    hide Inv, SemOpen, SemClose, SemWait, SemPost;
    match e
    case SemWaitCall(fd) => WaitIds(Enter(k, CALL_SEMWAIT, [fd]).value);
    case SemPostCall(fd) => PostIds(Enter(k, CALL_SEMPOST, [fd]).value);
    case SemOpenCall(id, c) =>
      EnterKeeps(k, CALL_SEMOPEN, [id, c]);
      OpenIds(Enter(k, CALL_SEMOPEN, [id, c]).value);
    case SemCloseCall(fd) => CloseIds(Enter(k, CALL_SEMCLOSE, [fd]).value);
    case _ => OtherSameSems(k, e);
  }

  /** An id comes into use only by being opened. */
  lemma UnusedStays(k: K, e: Event, k1: K, id: int)
    requires Inv(k) && Follows(k, e, k1) && Unused(k, id) && !(e.SemOpenCall? && e.id == id)
    ensures Unused(k1, id)
  {
    hide Inv, Step;
    StepIds(k, e, k1);
    FollowsStep(k, e, k1);
    forall s | s in k1.sems ensures k1.sems[s].id != id {
      if s !in k.sems { SemBorn(k, e, s); }
    }
  }
}
