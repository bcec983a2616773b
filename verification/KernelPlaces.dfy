/** Where a process is and why it waits, counted: what the invariant says of each single process. */
module KernelPlaces {
  import opened Seqs
  import opened KernelState
  import opened KernelInvariant
  import opened KernelSemMoves
  import opened KernelSteps
  import opened KernelEffects
  import opened KernelRuns

  function One(b: bool): nat { if b then 1 else 0 }

  lemma {:induction false} CountOnce<T>(s: seq<T>, x: T)
    requires NoDup(s)
    ensures multiset(s)[x] == One(x in s)
  {
    if s != [] {
      var t := s[..|s| - 1];
      assert s == t + [s[|s| - 1]];
      CountOnce(t, x);
    }
  }

  /** Every process is in exactly one place, and there once; the lists hold nothing but processes; and the status of
      a process that does not run names its list. */
  lemma ExactlyOnePlace(k: K, p: Pid)
    requires Inv(k)
    ensures One(p == k.running) + multiset(k.ready)[p] + multiset(k.waiting)[p] + multiset(k.zombies)[p] ==
            One(p in k.procs || p == k.running)
    ensures p in k.procs && p != k.running ==>
              && (k.procs[p].status == Ready <==> p in k.ready)
              && (k.procs[p].status == Waiting <==> p in k.waiting)
              && (k.procs[p].status == Zombie <==> p in k.zombies)
  {
    hide ReasonInv, TimerInv, DescInv, FamilyInv, PoolInv;
    CountOnce(k.ready, p);
    CountOnce(k.waiting, p);
    CountOnce(k.zombies, p);
    assert p in k.ready ==> Placed(k, p, Ready);
    assert p in k.waiting ==> Placed(k, p, Waiting);
    assert p in k.zombies ==> Placed(k, p, Zombie);
    assert p in k.procs ==> p == k.running || !Unlinked(k, p);
  }

  ghost function TimersOf(k: K, p: Pid): set<int> { set i | 0 <= i < |k.timers| && k.timers[i].pid == p }

  /** The entries of semaphores' waiting lists that belong to `p`, in whatever semaphore. */
  ghost function BlocksOf(k: K, p: Pid): set<(Ref, Ref)> {
    set s, q | s in k.sems && q in k.sems[s].waitingDescs && OwnerOf(k, q) == p :: (s, q)
  }

  lemma AtMostOne<T>(s: set<T>, x: T)
    requires x in s && forall y :: y in s ==> y == x
    ensures |s| == 1
  {
    assert s == {x};
  }

  lemma TimersCount(k: K, p: Pid)
    requires TimerInv(k)
    ensures |TimersOf(k, p)| == One(HasTimer(k.timers, p))
    ensures HasTimer(k.timers, p) ==> p in k.waiting && p in k.procs && k.procs[p].call == CALL_SLEEP
  {
    if HasTimer(k.timers, p) {
      var i :| 0 <= i < |k.timers| && k.timers[i].pid == p;
      assert SleepsBy(k, k.timers[i]);
      AtMostOne(TimersOf(k, p), i);
    } else {
      assert TimersOf(k, p) == {};
    }
  }

  lemma SameBlock(k: K, s: Ref, q: Ref, t: Ref, r: Ref)
    requires DescInv(k) && s in k.sems && q in k.sems[s].waitingDescs && t in k.sems && r in k.sems[t].waitingDescs
    requires OwnerOf(k, q) == OwnerOf(k, r)
    ensures s == t && q == r
  {
    if q != r { OneBlockEach(k, s, q, t, r); }
    assert SemOk(k, s) && SemOk(k, t) && NodeOf(k, s, q) && NodeOf(k, t, r);
  }

  lemma BlocksCount(k: K, p: Pid)
    requires DescInv(k)
    ensures |BlocksOf(k, p)| == One(BlocksOf(k, p) != {}) && (BlocksOf(k, p) != {} ==> p in k.waiting && p in k.procs)
    ensures BlocksOf(k, p) != {} ==> k.procs[p].call == CALL_SEMWAIT
  {
    if b :| b in BlocksOf(k, p) {
      BlockWaits(k, b.0, b.1);
      forall c | c in BlocksOf(k, p) ensures c == b { SameBlock(k, b.0, b.1, c.0, c.1); }
      AtMostOne(BlocksOf(k, p), b);
    }
  }

  lemma BlockWaits(k: K, s: Ref, q: Ref)
    requires DescInv(k) && s in k.sems && q in k.sems[s].waitingDescs
    ensures var p := OwnerOf(k, q); p in k.waiting && p in k.procs && k.procs[p].call == CALL_SEMWAIT
  {
    assert SemOk(k, s) && WaitsThrough(k, q);
  }

  /** Every waiting process has exactly one reason to wait: one timer, or one entry in the waiting list of one
      semaphore, or a wait for a child. A process that does not wait has neither timer nor entry. */
  lemma ExactlyOneReason(k: K, p: Pid)
    requires Inv(k)
    ensures p in k.waiting ==>
              p in k.procs && |TimersOf(k, p)| + |BlocksOf(k, p)| + One(k.procs[p].call == CALL_WAIT) == 1
    ensures p !in k.waiting ==> TimersOf(k, p) == {} && BlocksOf(k, p) == {}
  {
    hide Inv, SchedInv, FamilyInv, PoolInv, TimerInv, DescInv;
    InvParts(k);
    TimersCount(k, p);
    BlocksCount(k, p);
    if p in k.waiting {
      assert ReasonOk(k, p);
      if k.procs[p].call == CALL_SEMWAIT { HasBlock(k, p); }
    } else {
      assert |TimersOf(k, p)| == 0;
    }
  }

  lemma HasBlock(k: K, p: Pid)
    requires DescInv(k) && p in k.procs && BlockedOnSem(k, p)
    ensures BlocksOf(k, p) != {}
  {
    var d :| d in k.procs[p].semDescs && BlockedBy(k, p, d);
    assert ProcDescsOk(k, p) && DescOk(k, d);
    assert (k.descs[d].sem, k.descs[d].ptr) in BlocksOf(k, p);
  }

  /** Every open descriptor and its list node refer to each other; the node is in exactly one of the two lists of its
      semaphore, once, and in no list of another; and it is in the waiting list if and only if its process sleeps in a
      semwait on exactly this number. */
  lemma DescriptorPlace(k: K, d: Ref)
    requires Inv(k) && d in k.descs
    ensures var x := k.descs[d];
            && x.ptr in k.ptrs && k.ptrs[x.ptr] == d && x.sem in k.sems && x.pid in k.procs
            && multiset(k.sems[x.sem].descs)[x.ptr] + multiset(k.sems[x.sem].waitingDescs)[x.ptr] == 1
            && (forall t :: t in k.sems && t != x.sem ==>
                  x.ptr !in k.sems[t].descs && x.ptr !in k.sems[t].waitingDescs)
            && (x.ptr in k.sems[x.sem].waitingDescs <==>
                  x.pid in k.waiting && k.procs[x.pid].call == CALL_SEMWAIT && k.procs[x.pid].arg0 == x.fd)
  {
    hide SchedInv, TimerInv, FamilyInv, PoolInv;
    var x := k.descs[d];
    assert DescOk(k, d) && SemOk(k, x.sem) && ProcDescsOk(k, x.pid);
    CountOnce(k.sems[x.sem].descs, x.ptr);
    CountOnce(k.sems[x.sem].waitingDescs, x.ptr);
    forall t | t in k.sems && t != x.sem ensures x.ptr !in k.sems[t].descs && x.ptr !in k.sems[t].waitingDescs {
      assert SemOk(k, t) && !NodeOf(k, t, x.ptr);
    }
    if x.ptr in k.sems[x.sem].waitingDescs { assert WaitsThrough(k, x.ptr); }
    if x.pid in k.waiting && k.procs[x.pid].call == CALL_SEMWAIT {
      assert ReasonOk(k, x.pid);
      var e :| e in k.procs[x.pid].semDescs && BlockedBy(k, x.pid, e);
      assert k.procs[x.pid].arg0 == x.fd ==> e == d;
    }
  }

  // ---- child nodes

  /** The entries of all children lists. */
  ghost function Entries(k: K): set<(Pid, Pid)> {
    set p, c | p in k.procs && c in k.procs[p].children :: (p, c)
  }

  /** Each process of `cs` with its parent. */
  ghost function Kinships(k: K, cs: set<Pid>): set<(Pid, Pid)>
    requires cs <= k.procs.Keys
  {
    set c | c in cs :: (k.procs[c].parent, c)
  }

  lemma Member<T>(s: set<T>) returns (x: T)
    requires s != {}
    ensures x in s
  {
    x :| x in s;
  }

  lemma {:induction false} KinshipsCount(k: K, cs: set<Pid>)
    requires cs <= k.procs.Keys
    ensures |Kinships(k, cs)| == |cs|
  {
    if cs != {} {
      var c := Member(cs);
      KinshipsCount(k, cs - {c});
      assert Kinships(k, cs) == Kinships(k, cs - {c}) + {(k.procs[c].parent, c)};
    }
  }

  lemma EntriesAre(k: K, cs: set<Pid>)
    requires FamilyInv(k) && SchedInv(k) && cs == k.procs.Keys - {INIT}
    ensures Entries(k) == Kinships(k, cs)
  {
    hide FamilyInv, SchedInv;
    forall e | e in Entries(k) ensures e in Kinships(k, cs) {
      EntryParent(k, e.0, e.1);
      assert e.1 in cs && (k.procs[e.1].parent, e.1) == e;
    }
    forall c | c in cs ensures (k.procs[c].parent, c) in Entries(k) { HasEntry(k, c); }
  }

  /** Every process but init is in exactly one children list, its parent's. */
  lemma EntriesCount(k: K)
    requires FamilyInv(k) && SchedInv(k)
    ensures |Entries(k)| == |k.procs| - 1
  {
    hide SchedInv, Entries, Kinships;
    var cs := k.procs.Keys - {INIT};
    EntriesAre(k, cs);
    KinshipsCount(k, cs);
  }

  lemma HasEntry(k: K, c: Pid)
    requires FamilyInv(k) && SchedInv(k) && c in k.procs && c != INIT
    ensures k.procs[c].parent in k.procs && c in k.procs[k.procs[c].parent].children
  {
    assert FamilyOk(k, c);
  }

  lemma EntryParent(k: K, p: Pid, c: Pid)
    requires FamilyInv(k) && SchedInv(k) && p in k.procs && c in k.procs[p].children
    ensures c in k.procs && c != INIT && k.procs[c].parent == p
  {
    assert FamilyOk(k, p) && FamilyOk(k, INIT);
  }

  /** The step is the exit of a process that its parent awaits. */
  ghost predicate HandsBack(k: K, e: Event) {
    && e.ExitCall?
    && k.running in k.procs && k.procs[k.running].parent in k.procs && ParentAwaits(k, k.running)
  }

  /** What a step takes from and gives back to the pools of processes and of child nodes. */
  lemma PoolSteps(k: K, e: Event, k1: K)
    requires Inv(k) && Follows(k, e, k1)
    ensures k1.freePcbPtrs - |k1.freePcbs| == k.freePcbPtrs - |k.freePcbs| - One(HandsBack(k, e))
  {
    hide Inv, Schedule, Spawn, Exit, Wait, Sleep, SemOpen, SemClose, SemWait, SemPost;
    match e
    case TickEvent => SchedulePools(k.(now := k.now + 1));
    case PreemptCall => SchedulePools(Enter(k, CALL_PREEMPT, []).value);
    case SpawnCall => SpawnPools(Enter(k, CALL_SPAWN, [0, 0]).value);
    case ExitCall(v) => ExitPools(k, v, k1);
    case WaitCall(p) => WaitPools(Enter(k, CALL_WAIT, [p, 0]).value);
    case SleepCall(n) => SleepPools(Enter(k, CALL_SLEEP, [n]).value);
    case SemOpenCall(id, c) => OpenPcbs(Enter(k, CALL_SEMOPEN, [id, c]).value);
    case SemCloseCall(fd) => ClosePcbs(Enter(k, CALL_SEMCLOSE, [fd]).value);
    case SemWaitCall(fd) => SemWaitPcbs(Enter(k, CALL_SEMWAIT, [fd]).value);
    case SemPostCall(fd) => SemPostPcbs(Enter(k, CALL_SEMPOST, [fd]).value);
  }

  ghost predicate SamePcbPools(k: K, r: K) { r.freePcbPtrs == k.freePcbPtrs && r.freePcbs == k.freePcbs }

  lemma WakePools(k: K, at: nat)
    requires WakeElapsed(k, at).Ok?
    ensures SamePcbPools(k, WakeElapsed(k, at).value)
    decreases |k.timers|
  {
    if Elapsed(k) && WakeFirst(k, at).Ok? { WakePools(WakeFirst(k, at).value, at + 1); }
  }

  lemma SchedulePools(k: K)
    requires Schedule(k).Ok?
    ensures SamePcbPools(k, Schedule(k).value)
  {
    hide WakeElapsed;
    WakePools(k, 0);
  }

  lemma SpawnPools(k: K)
    requires Spawn(k).Ok?
    ensures var r := Spawn(k).value; r.freePcbPtrs - |r.freePcbs| == k.freePcbPtrs - |k.freePcbs|
  {
  }

  lemma ExitPools(k: K, v: int, k1: K)
    requires Inv(k) && Follows(k, ExitCall(v), k1)
    ensures k1.freePcbPtrs - |k1.freePcbs| == k.freePcbPtrs - |k.freePcbs| - One(HandsBack(k, ExitCall(v)))
  {
    hide Inv, SchedInv, FamilyInv, Leave;
    InvParts(k);
    ParentFacts(k);
    LeavePools(Valued(Enter(k, CALL_EXIT, [v]).value));
  }

  lemma LeavePools(k: K)
    requires k.running in k.procs && k.procs[k.running].parent in k.procs && Leave(k).Ok?
    requires k.procs[k.running].parent != k.running
    ensures var r := Leave(k).value;
            r.freePcbPtrs - |r.freePcbs| == k.freePcbPtrs - |k.freePcbs| - One(ParentAwaits(k, k.running))
  {
    hide DropTimers, Without;
  }

  lemma WaitPools(k: K)
    requires Wait(k).Ok?
    ensures var r := Wait(k).value; r.freePcbPtrs - |r.freePcbs| == k.freePcbPtrs - |k.freePcbs|
  {
  }

  lemma SleepPools(k: K)
    requires Sleep(k).Ok?
    ensures SamePcbPools(k, Sleep(k).value)
  {
  }

  lemma OpenPcbs(k: K)
    requires SemOpen(k).Ok?
    ensures SamePcbPools(k, SemOpen(k).value)
  {
  }

  lemma ClosePcbs(k: K)
    requires SemClose(k).Ok?
    ensures SamePcbPools(k, SemClose(k).value)
  {
  }

  lemma SemWaitPcbs(k: K)
    requires SemWait(k).Ok?
    ensures SamePcbPools(k, SemWait(k).value)
  {
  }

  lemma SemPostPcbs(k: K)
    requires SemPost(k).Ok?
    ensures SamePcbPools(k, SemPost(k).value)
  {
  }

  /** Free child nodes and nodes in children lists add up to the same number in every step but one: the exit of an
      awaited process takes its node off the parent's list and never frees it, so one node is lost. */
  lemma ChildNodes(k: K, e: Event, k1: K)
    requires Inv(k) && Follows(k, e, k1)
    ensures k1.freePcbPtrs + |Entries(k1)| == k.freePcbPtrs + |Entries(k)| - One(HandsBack(k, e))
  {
    hide Inv, SchedInv, FamilyInv, Step, Entries;
    FollowsStep(k, e, k1);
    StepKeeps(k, e);
    PoolSteps(k, e, k1);
    InvParts(k);
    InvParts(k1);
    EntriesCount(k);
    EntriesCount(k1);
  }

  /** The exits of awaited processes along a run. */
  ghost function Lost(ks: seq<K>, es: seq<Event>): nat
    requires |ks| == |es| + 1
  {
    if es == [] then 0
    else Lost(ks[..|es|], es[..|es| - 1]) + One(HandsBack(ks[|es| - 1], es[|es| - 1]))
  }

  /** Over every run: as many child nodes are lost as awaited processes have exited. */
  lemma {:induction false} NodesLost(ks: seq<K>, es: seq<Event>)
    requires Run(ks, es) && Inv(ks[0])
    ensures ks[|es|].freePcbPtrs + |Entries(ks[|es|])| == ks[0].freePcbPtrs + |Entries(ks[0])| - Lost(ks, es)
  {
    hide Inv, Step, Entries, Follows;
    if es != [] {
      var n := |es| - 1;
      RunPrefix(ks, es);
      NodesLost(ks[..|es|], es[..n]);
      RunInv(ks, es);
      FollowsStep(ks[n], es[n], ks[n + 1]);
      ChildNodes(ks[n], es[n], ks[n + 1]);
    }
  }

  /** From start-up: the child nodes that are free, in lists, or lost are all the nodes there are. */
  lemma NodesSinceBoot(ks: seq<K>, es: seq<Event>)
    requires Run(ks, es) && ks[0] == Boot()
    ensures ks[|es|].freePcbPtrs + |Entries(ks[|es|])| + Lost(ks, es) == MAX_NUM_PROCESSES
  {
    hide Inv, Step, Follows;
    BootInv();
    NodesLost(ks, es);
    assert Entries(Boot()) == {};
  }
}
