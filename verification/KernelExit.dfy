/** Exit without its requirements: it leaves the kernel inconsistent in exactly the cases where the caller still has
    children or open semaphores. */
module KernelExit {
  import opened Outcomes
  import opened Seqs
  import opened KernelState
  import opened KernelInvariant
  import opened KernelMoves
  import opened KernelSemMoves
  import opened KernelSteps

  lemma {:induction false} WithoutKeeps<T>(s: seq<T>, x: T, y: T)
    requires y in s && y != x
    ensures y in Without(s, x)
  {
    if s[0] != x {
      if y != s[0] { WithoutKeeps(s[1..], x, y); }
    }
  }

  /** Leaving changes no other process's parent and takes nobody but the caller out of a children list. */
  lemma LeaveKeepsKin(k: K, p: Pid, c: Pid)
    requires k.running in k.procs && Leave(k).Ok? && p in k.procs && p != k.running && c in k.procs && c != k.running
    ensures var r := Leave(k).value;
            && p in r.procs && c in r.procs && r.procs[c].parent == k.procs[c].parent
            && (c in k.procs[p].children ==> c in r.procs[p].children)
  {
    if c in k.procs[p].children { WithoutKeeps(k.procs[p].children, k.running, c); }
  }

  /** A child handed to init still names the dead process as its parent. */
  lemma OrphanDangles(k: K)
    requires Inv(k) && k.running in k.procs && k.running != INIT && k.procs[k.running].children != []
    requires Exit(k).Ok?
    ensures !FamilyInv(Exit(k).value)
  {
    hide DescInv, TimerInv, ReasonInv, PoolInv, Inv, SchedInv, FamilyInv, Leave;
    InvParts(k);
    var me := k.running;
    var c := k.procs[me].children[0];
    assert c in k.procs[me].children;
    ChildrenExist(k);
    var k2 := Reparent(Valued(k)).value;
    assert Exit(k) == Leave(k2) && c in k2.procs[INIT].children;
    LeaveKeepsKin(k2, INIT, c);
    Misplaced(Exit(k).value, c);
  }

  lemma Misplaced(r: K, c: Pid)
    requires INIT in r.procs && c in r.procs && c in r.procs[INIT].children && r.procs[c].parent != INIT
    ensures !FamilyInv(r)
  {
    assert !FamilyOk(r, INIT);
  }

  /** A descriptor left open belongs to a zombie that nobody will clean up, or to no process at all. */
  lemma OpenDescDangles(k: K)
    requires Inv(k) && k.running in k.procs && k.running != INIT
    requires k.procs[k.running].children == [] && k.procs[k.running].semDescs != []
    requires Exit(k).Ok?
    ensures !Inv(Exit(k).value)
  {
    hide TimerInv, ReasonInv, PoolInv, SchedInv, Inv, FamilyInv, DescInv;
    InvParts(k);
    ParentFacts(k);
    RunningUnlinked(k);
    var me := k.running;
    var d := k.procs[me].semDescs[0];
    assert d in k.procs[me].semDescs;
    OpenNode(k, d);
    var k1 := Valued(k);
    var r := Exit(k).value;
    assert Exit(k) == Leave(k1);
    if me in r.procs {
      assert r.procs[me].status == Zombie && me in r.zombies;
      DirtyZombie(r, me);
    } else {
      OwnerGone(r, d);
    }
  }

  lemma DirtyZombie(r: K, me: Pid)
    requires me in r.procs && r.procs[me].status == Zombie && me in r.zombies && r.procs[me].semDescs != []
    ensures !Inv(r)
  {
  }

  lemma OwnerGone(r: K, d: Ref)
    requires d in r.descs && r.descs[d].pid !in r.procs
    ensures !Inv(r)
  {
    hide SchedInv, TimerInv, ReasonInv, PoolInv, FamilyInv;
    assert !DescOk(r, d);
  }

  /** Exit meets its requirements, and only then leaves a consistent kernel behind. */
  lemma ExitExact(k: K, v: int)
    requires Inv(k) && k.running in k.procs && k.running != INIT && Step(k, ExitCall(v)).Ok?
    ensures Inv(Step(k, ExitCall(v)).value) <==>
            k.procs[k.running].children == [] && k.procs[k.running].semDescs == []
  {
    hide Inv, Exit, FamilyInv, SchedInv, DescInv, TimerInv, ReasonInv, PoolInv;
    if CleanExit(k) {
      StepKeeps(k, ExitCall(v));
    } else {
      EnterKeeps(k, CALL_EXIT, [v]);
      var k1 := Enter(k, CALL_EXIT, [v]).value;
      if k.procs[k.running].children != [] {
        OrphanDangles(k1);
        if Inv(Exit(k1).value) { InvParts(Exit(k1).value); }
      } else {
        OpenDescDangles(k1);
      }
    }
  }

  /** Init never gets as far as leaving: it has no parent to tell. */
  lemma InitExitFaults(k: K, v: int)
    requires Inv(k) && k.running == INIT
    ensures Step(k, ExitCall(v)) == Fault
  {
    hide DescInv, TimerInv, ReasonInv, PoolInv;
    assert FamilyOk(k, INIT);
  }

  // ---- when exit faults, and who an orphan wakes

  /** The state once the children have been handed over. */
  lemma ReparentShape(k: K)
    requires k.running in k.procs && INIT in k.procs && k.running != INIT
    ensures var r := Reparent(k);
            && r.Ok? && r.value.running == k.running && r.value.procs.Keys == k.procs.Keys
            && r.value.ready == k.ready && r.value.waiting == k.waiting && r.value.zombies == k.zombies
            && forall p :: p in k.procs ==>
                 var c, c1 := k.procs[p], r.value.procs[p];
                 && c1.status == c.status && c1.parent == c.parent && c1.call == c.call && c1.arg0 == c.arg0
                 && (p != k.running ==> forall x :: x in c.children ==> x in c1.children)
  {
  }

  /** Leaving faults only for want of somebody to run. */
  lemma LeaveFaults(k: K)
    requires k.running in k.procs && Unlinked(k, k.running)
    requires var p := k.procs[k.running].parent;
             && p in k.procs && p != k.running && k.running in k.procs[p].children
             && (ParentAwaits(k, k.running) ==> p in k.waiting)
    requires k.ready != [] ==> k.ready[0] in k.procs
    ensures Leave(k) == Fault <==> k.ready == [] && !ParentAwaits(k, k.running)
  {
    hide DropTimers, Without;
  }

  /** Clean or not, an exit faults exactly when no parent awaits it and nobody is ready. */
  lemma ExitFaults(k: K, v: int)
    requires Inv(k) && k.running in k.procs && k.running != INIT
    ensures k.procs[k.running].parent in k.procs
    ensures Step(k, ExitCall(v)) == Fault <==> k.ready == [] && !ParentAwaits(k, k.running)
  {
    hide Inv, SchedInv, FamilyInv, DescInv, TimerInv, ReasonInv, PoolInv, Leave, Reparent;
    EnterKeeps(k, CALL_EXIT, [v]);
    var k1 := Enter(k, CALL_EXIT, [v]).value;
    InvParts(k);
    InvParts(k1);
    ParentFacts(k);
    ParentFacts(k1);
    RunningUnlinked(k1);
    ReparentShape(Valued(k1));
    HeadExists(k1);
    LeaveFaults(Reparent(Valued(k1)).value);
  }

  lemma HeadExists(k: K)
    requires SchedInv(k)
    ensures k.ready != [] ==> k.ready[0] in k.procs
  {
    assert k.ready != [] ==> k.ready[0] in k.ready && Placed(k, k.ready[0], Ready);
  }

  /** A process whose parent is not init does not wake init by its exit, though init holds it as a child and waits
      for any. */
  lemma OrphanWakesNobody(k: K, v: int, k1: K)
    requires k.running in k.procs && k.procs[k.running].parent != INIT && INIT in k.waiting && k.running != INIT
    requires Step(k, ExitCall(v)) == Ok(k1)
    ensures INIT in k1.waiting
  {
    hide DropTimers, Reparent;
    var p := k.procs[k.running].parent;
    ReparentShape(Valued(Enter(k, CALL_EXIT, [v]).value));
    if p in k.waiting { WithoutKeeps(k.waiting, p, INIT); }
  }

  lemma {:induction false} WithoutFront<T>(a: seq<T>, b: seq<T>, x: T)
    requires x in a
    ensures Without(a + b, x) == Without(a, x) + b
  {
    if a[0] == x {
      assert (a + b)[1..] == a[1..] + b;
    } else {
      assert (a + b)[1..] == a[1..] + b;
      WithoutFront(a[1..], b, x);
    }
  }

  /** Exit puts all of the caller's children, in their order, behind those that init has; the caller itself leaves
      init's list only if init is its parent and awaits it. */
  lemma ExitHandsOver(k: K, v: int, k1: K)
    requires Inv(k) && k.running in k.procs && k.running != INIT && Step(k, ExitCall(v)) == Ok(k1)
    ensures INIT in k.procs && INIT in k1.procs && k.procs[k.running].parent in k.procs
    ensures var mine, inits := k.procs[k.running].children, k.procs[INIT].children;
            && k1.procs[INIT].children ==
               (if k.procs[k.running].parent == INIT && ParentAwaits(k, k.running) then Without(inits, k.running)
                else inits) + mine
            && (k.running in k1.procs ==> k1.procs[k.running].children == [])
  {
    hide SchedInv, ReasonInv, TimerInv, DescInv, FamilyInv, PoolInv, Leave;
    ParentFacts(k);
    var k0 := Valued(Enter(k, CALL_EXIT, [v]).value);
    ReparentShape(k0);
    WithoutFrontOf(k.procs[INIT].children, k.procs[k.running].children, k.running);
    LeaveLists(Reparent(k0).value);
  }

  lemma WithoutFrontOf(a: seq<Pid>, b: seq<Pid>, x: Pid)
    ensures x in a ==> Without(a + b, x) == Without(a, x) + b
  {
    if x in a { WithoutFront(a, b, x); }
  }

  lemma LeaveLists(k: K)
    requires k.running in k.procs && k.running != INIT && INIT in k.procs && Leave(k).Ok?
    requires k.procs[k.running].parent in k.procs && k.procs[k.running].parent != k.running
    ensures var r := Leave(k).value;
            && INIT in r.procs
            && r.procs[INIT].children ==
               (if k.procs[k.running].parent == INIT && ParentAwaits(k, k.running)
                then Without(k.procs[INIT].children, k.running) else k.procs[INIT].children)
            && (k.running in r.procs ==> r.procs[k.running].children == k.procs[k.running].children)
  {
    hide DropTimers, Without;
  }

  /** The timers of a process, taken off the list at its exit: its own go, all others stay. */
  lemma {:induction false} DropTimersExactly(ts: seq<Timer>, p: Pid)
    ensures forall t :: multiset(DropTimers(ts, p))[t] == if t.pid == p then 0 else multiset(ts)[t]
  {
    if ts != [] {
      DropTimersExactly(ts[1..], p);
      assert ts == [ts[0]] + ts[1..];
    }
  }

  /** They stay in their order: the list may be cut anywhere and its parts treated one after the other. */
  lemma {:induction false} DropTimersParts(a: seq<Timer>, b: seq<Timer>, p: Pid)
    ensures DropTimers(a + b, p) == DropTimers(a, p) + DropTimers(b, p)
  {
    if a == [] {
      assert a + b == b;
    } else {
      assert (a + b)[1..] == a[1..] + b;
      DropTimersParts(a[1..], b, p);
    }
  }

  /** Init sleeps in a wait that the exit of the running process ought to end. */
  ghost predicate InitAwaits(k: K) {
    && INIT in k.procs && INIT in k.waiting && NoDup(k.waiting) && k.running != INIT
    && k.procs[INIT].status == Waiting && k.procs[INIT].call == CALL_WAIT
    && (k.procs[INIT].arg0 == 0 || k.procs[INIT].arg0 == k.running)
  }

  /** The exit wakes init if and only if the caller's parent pointer is init, whatever child list the caller is in and
      whether the exit is clean or not. */
  lemma ExitWakesInit(k: K, v: int, k1: K)
    requires k.running in k.procs && InitAwaits(k) && Step(k, ExitCall(v)) == Ok(k1)
    ensures INIT !in k1.waiting <==> k.procs[k.running].parent == INIT
    ensures k.procs[k.running].parent == INIT ==> k1.running == INIT
  {
    if k.procs[k.running].parent != INIT {
      OrphanWakesNobody(k, v, k1);
    } else {
      ReparentShape(Valued(Enter(k, CALL_EXIT, [v]).value));
      WithoutMembers(k.waiting, INIT);
      hide DropTimers, Reparent, Without;
    }
  }
}
