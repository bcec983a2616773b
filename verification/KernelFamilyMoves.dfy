/** Birth, death and burial of a process, each keeping the whole invariant. */
module KernelFamilyMoves {
  import opened Seqs
  import opened KernelState
  import opened KernelInvariant
  import opened KernelMoves
  import opened KernelSemMoves

  // ---- birth

  lemma SpawnMove(k: K)
    requires Inv(k) && k.running in k.procs && k.freePcbs != [] && k.freePcbPtrs > 0
    ensures Spawn(k).Ok? && Inv(Spawn(k).value)
  {
    hide SchedInv, ReasonInv, TimerInv, DescInv, FamilyInv, PoolInv;
    var k1 := Spawn(k).value;
    NewPid(k);
    NotRunning(k);
    SpawnSched(k);
    SpawnTimers(k);
    SpawnDescs(k);
    SpawnFamily(k);
    SpawnPools(k);
    forall p, d | p in k.procs && BlockedBy(k, p, d) ensures BlockedBy(k1, p, d) {}
    FrameBlocked(k, k1);
  }

  lemma NewPid(k: K)
    requires SchedInv(k)
    ensures k.lastPid !in k.procs && k.lastPid >= 0
    ensures Unlinked(k, k.lastPid) && (k.running == NULL || k.running < k.lastPid)
    ensures forall p :: p in k.procs ==> 0 <= p < k.lastPid
  {
    var p := k.lastPid;
    assert p !in k.procs;
    assert !Placed(k, p, Ready) && !Placed(k, p, Waiting) && !Placed(k, p, Zombie);
  }

  lemma SpawnSched(k: K)
    requires SchedInv(k) && Spawn(k).Ok? && k.lastPid !in k.procs && k.lastPid >= 0 && Unlinked(k, k.lastPid)
    ensures SchedInv(Spawn(k).value)
  {
    var k1 := Spawn(k).value;
    forall p | p in k1.ready ensures Placed(k1, p, Ready) { assert p in k.ready ==> Placed(k, p, Ready); }
    forall p | p in k1.waiting ensures Placed(k1, p, Waiting) { assert Placed(k, p, Waiting); }
    forall p | p in k1.zombies ensures Placed(k1, p, Zombie) { assert Placed(k, p, Zombie); }
    forall p | p in k1.procs ensures p == k1.running || !Unlinked(k1, p) {
      assert p in k.procs ==> p == k.running || !Unlinked(k, p);
      assert k.lastPid in k1.ready;
    }
  }

  lemma SpawnTimers(k: K)
    requires TimerInv(k) && Spawn(k).Ok? && k.lastPid !in k.procs
    ensures TimerInv(Spawn(k).value)
  {
    var k1 := Spawn(k).value;
    forall i | 0 <= i < |k1.timers| ensures SleepsBy(k1, k1.timers[i]) { assert SleepsBy(k, k.timers[i]); }
  }

  lemma SpawnDescs(k: K)
    requires DescInv(k) && PoolInv(k) && Spawn(k).Ok? && k.lastPid !in k.procs
    ensures DescInv(Spawn(k).value)
  {
    hide SemOk, PoolInv;
    var k1 := Spawn(k).value;
    assert k.freePcbs[0] == [] by { EmptyField(k); }
    forall d | d in k1.descs ensures DescOk(k1, d) { assert DescOk(k, d); }
    forall q | q in k1.ptrs ensures PtrOk(k1, q) { assert PtrOk(k, q); }
    forall p | p in k1.procs ensures ProcDescsOk(k1, p) { assert p in k.procs ==> ProcDescsOk(k, p); }
    forall q, t | NodeOf(k, t, q) ensures NodeOf(k1, t, q) {}
    forall q | WaitsThrough(k, q) ensures WaitsThrough(k1, q) {}
    forall s | s in k1.sems ensures SemOk(k1, s) { assert SemOk(k, s); FrameSemNodes(k, k1, s); }
  }

  /** The field `PCB_alloc` forgets to initialise is an empty list anyway. */
  lemma EmptyField(k: K)
    requires PoolInv(k) && k.freePcbs != []
    ensures k.freePcbs[0] == []
  {
  }

  lemma SpawnFamily(k: K)
    requires FamilyInv(k) && SchedInv(k) && Spawn(k).Ok? && k.lastPid !in k.procs && 0 <= k.running < k.lastPid
    ensures FamilyInv(Spawn(k).value)
  {
    hide FamilyOk, StillAwaits, SchedInv;
    var k1 := Spawn(k).value;
    NotRunning(k);
    NoZombieRuns(k);
    forall p | p in k1.procs ensures FamilyOk(k1, p) { SpawnFamilyOk(k, p); }
    forall p | p in k1.waiting && p in k1.procs && k1.procs[p].call == CALL_WAIT ensures StillAwaits(k1, p) {
      SpawnAwaits(k, p);
    }
  }

  lemma NoZombieRuns(k: K)
    requires SchedInv(k)
    ensures forall p :: p in k.zombies ==> p in k.procs && p != k.running
  {
    forall p | p in k.zombies ensures p in k.procs && p != k.running { assert Placed(k, p, Zombie); }
  }

  lemma SpawnFamilyOk(k: K, p: Pid)
    requires FamilyInv(k) && Spawn(k).Ok? && k.lastPid !in k.procs && 0 <= k.running < k.lastPid
    requires p in Spawn(k).value.procs
    ensures FamilyOk(Spawn(k).value, p)
  {
    if p in k.procs {
      assert FamilyOk(k, p) && k.lastPid !in k.procs[p].children;
    } else {
      assert p in Spawn(k).value.procs[k.running].children;
    }
  }

  lemma SpawnAwaits(k: K, p: Pid)
    requires FamilyInv(k) && Spawn(k).Ok? && k.lastPid !in k.procs
    requires p in k.waiting && p in k.procs && p != k.running && k.procs[p].call == CALL_WAIT
    ensures StillAwaits(Spawn(k).value, p)
  {
    assert StillAwaits(k, p) && FamilyOk(k, p);
  }

  lemma SpawnPools(k: K)
    requires PoolInv(k) && Spawn(k).Ok? && k.lastPid !in k.procs
    ensures PoolInv(Spawn(k).value)
  {
    var k1 := Spawn(k).value;
    var me := k.procs[k.running];
    assert k1.procs.Keys == k.procs.Keys + {k.lastPid};
    assert |k1.procs| == |k1.procs.Keys| && |k.procs| == |k.procs.Keys|;
    assert forall i :: 0 <= i < |k1.freePcbs| ==> k1.freePcbs[i] == k.freePcbs[i + 1];
  }

  // ---- death

  /** The caller becomes a zombie and nobody runs. */
  function Die(k: K): K
    requires k.running in k.procs
  {
    Put(k, k.running, k.procs[k.running].(status := Zombie)).(running := NULL, zombies := k.zombies + [k.running])
  }

  /** Dying keeps the invariant when the process has neither children nor open semaphores and its parent does
      not sleep for it. */
  lemma DieMove(k: K)
    requires Inv(k) && k.running in k.procs && k.running != INIT
    requires k.procs[k.running].children == [] && k.procs[k.running].semDescs == []
    requires k.procs[k.running].parent in k.procs && !ParentAwaits(k, k.running)
    ensures Inv(Die(k))
  {
    hide SchedInv, ReasonInv, TimerInv, DescInv, FamilyInv, PoolInv;
    var k1 := Die(k);
    RunningUnlinked(k);
    NotRunning(k);
    DieSched(k);
    FrameTimers(k, k1);
    FrameReasons(k, k1);
    FrameDesc(k, k1);
    FramePools(k, k1);
    DieFamily(k);
  }

  lemma DieSched(k: K)
    requires SchedInv(k) && k.running in k.procs && Unlinked(k, k.running)
    ensures SchedInv(Die(k))
  {
    var k1 := Die(k);
    forall p | p in k1.ready ensures Placed(k1, p, Ready) { assert Placed(k, p, Ready); }
    forall p | p in k1.waiting ensures Placed(k1, p, Waiting) { assert Placed(k, p, Waiting); }
    forall p | p in k1.zombies ensures Placed(k1, p, Zombie) { assert p in k.zombies ==> Placed(k, p, Zombie); }
    forall p | p in k1.procs ensures p == k1.running || !Unlinked(k1, p) {
      assert p == k.running || !Unlinked(k, p);
      assert k.running in k1.zombies;
    }
  }

  lemma DieFamily(k: K)
    requires FamilyInv(k) && SchedInv(k) && k.running in k.procs
    requires k.procs[k.running].children == [] && k.procs[k.running].semDescs == []
    requires k.procs[k.running].parent in k.procs && !ParentAwaits(k, k.running)
    ensures FamilyInv(Die(k))
  {
    var k1 := Die(k);
    var me := k.running;
    forall p | p in k1.procs ensures FamilyOk(k1, p) { assert FamilyOk(k, p); }
    forall p | p in k1.waiting && p in k1.procs && k1.procs[p].call == CALL_WAIT ensures StillAwaits(k1, p) {
      assert Placed(k, p, Waiting) && StillAwaits(k, p) && FamilyOk(k, p);
    }
  }

  // ---- burial

  /** Process `c` disappears: from its parent's children, from the zombies and from memory. */
  function Removed(k: K, c: Pid, ptrs: int): K
    requires c in k.procs && k.procs[c].parent in k.procs
  {
    var p := k.procs[c].parent;
    FreePcb(Put(k, p, k.procs[p].(children := Without(k.procs[p].children, c)))
            .(zombies := Without(k.zombies, c), freePcbPtrs := ptrs), c)
  }

  lemma RemovedMove(k: K, c: Pid, ptrs: int)
    requires Inv(k) && c in k.zombies && c != INIT
    ensures c in k.procs && k.procs[c].parent in k.procs && c in k.procs[k.procs[c].parent].children
    ensures k.procs[c].parent != c
    ensures Inv(Removed(k, c, ptrs))
  {
    hide SchedInv, ReasonInv, TimerInv, DescInv, FamilyInv, PoolInv;
    ZombieFacts(k, c);
    var k1 := Removed(k, c, ptrs);
    RemovedSched(k, c, ptrs);
    RemovedTimers(k, c, ptrs);
    RemovedDescs(k, c, ptrs);
    RemovedFamily(k, c, ptrs);
    RemovedPools(k, c, ptrs);
    NotRunning(k);
    ZombieNotWaiting(k, c);
    forall p, d | p in k.procs && BlockedBy(k, p, d) && p != c ensures BlockedBy(k1, p, d) {}
    FrameBlocked(k, k1);
  }

  lemma ZombieFacts(k: K, c: Pid)
    requires SchedInv(k) && FamilyInv(k) && c in k.zombies && c != INIT
    ensures 0 <= c && c in k.procs && k.procs[c].status == Zombie && c != k.running
    ensures k.procs[c].children == [] && k.procs[c].semDescs == []
    ensures k.procs[c].parent in k.procs && c in k.procs[k.procs[c].parent].children && k.procs[c].parent < c
  {
    assert Placed(k, c, Zombie);
    assert FamilyOk(k, c) && FamilyOk(k, k.procs[c].parent);
  }

  lemma ZombieNotWaiting(k: K, c: Pid)
    requires SchedInv(k) && c in k.zombies
    ensures c !in k.waiting && c !in k.ready
  {
    assert Placed(k, c, Zombie) && !Placed(k, c, Waiting) && !Placed(k, c, Ready);
  }

  lemma RemovedSched(k: K, c: Pid, ptrs: int)
    requires SchedInv(k) && c in k.zombies && c in k.procs && c != k.running
    requires k.procs[c].parent in k.procs && k.procs[c].parent != c
    ensures SchedInv(Removed(k, c, ptrs))
  {
    var k1 := Removed(k, c, ptrs);
    ZombieNotWaiting(k, c);
    WithoutMembers(k.zombies, c);
    forall p | p in k1.ready ensures Placed(k1, p, Ready) { assert Placed(k, p, Ready); }
    forall p | p in k1.waiting ensures Placed(k1, p, Waiting) { assert Placed(k, p, Waiting); }
    forall p | p in k1.zombies ensures Placed(k1, p, Zombie) { assert Placed(k, p, Zombie); }
    forall p | p in k1.procs ensures p == k1.running || !Unlinked(k1, p) {
      assert p == k.running || !Unlinked(k, p);
    }
  }

  lemma RemovedTimers(k: K, c: Pid, ptrs: int)
    requires TimerInv(k) && SchedInv(k) && c in k.zombies && c in k.procs
    requires k.procs[c].parent in k.procs && k.procs[c].parent != c
    ensures TimerInv(Removed(k, c, ptrs))
  {
    var k1 := Removed(k, c, ptrs);
    ZombieNotWaiting(k, c);
    forall i | 0 <= i < |k1.timers| ensures SleepsBy(k1, k1.timers[i]) { assert SleepsBy(k, k.timers[i]); }
  }

  lemma RemovedDescs(k: K, c: Pid, ptrs: int)
    requires DescInv(k) && SchedInv(k) && c in k.zombies && c in k.procs && k.procs[c].semDescs == []
    requires k.procs[c].parent in k.procs && k.procs[c].parent != c
    ensures DescInv(Removed(k, c, ptrs))
  {
    hide SemOk, SchedInv;
    var k1 := Removed(k, c, ptrs);
    ZombieNotWaiting(k, c);
    forall d | d in k1.descs ensures DescOk(k1, d) { assert DescOk(k, d); }
    forall q | q in k1.ptrs ensures PtrOk(k1, q) { assert PtrOk(k, q); }
    forall p | p in k1.procs ensures ProcDescsOk(k1, p) { assert ProcDescsOk(k, p); }
    forall q, t | NodeOf(k, t, q) ensures NodeOf(k1, t, q) {}
    forall q | WaitsThrough(k, q) ensures WaitsThrough(k1, q) {}
    forall s | s in k1.sems ensures SemOk(k1, s) { assert SemOk(k, s); FrameSemNodes(k, k1, s); }
  }

  lemma RemovedFamily(k: K, c: Pid, ptrs: int)
    requires FamilyInv(k) && SchedInv(k) && c in k.zombies && c != INIT && 0 <= c
    requires c in k.procs && k.procs[c].children == []
    requires k.procs[c].parent in k.procs && c in k.procs[k.procs[c].parent].children && k.procs[c].parent < c
    ensures FamilyInv(Removed(k, c, ptrs))
  {
    hide FamilyOk, StillAwaits, SchedInv;
    var k1 := Removed(k, c, ptrs);
    ZombieNotWaiting(k, c);
    forall p | p in k1.procs ensures FamilyOk(k1, p) { RemovedFamilyOk(k, c, ptrs, p); }
    forall p | p in k1.waiting && p in k1.procs && k1.procs[p].call == CALL_WAIT ensures StillAwaits(k1, p) {
      RemovedAwaits(k, c, ptrs, p);
    }
    RemovedZombies(k, c, ptrs);
  }

  lemma RemovedFamilyOk(k: K, c: Pid, ptrs: int, p: Pid)
    requires 0 <= c && c in k.procs && k.procs[c].children == [] && p in k.procs && p != c
    requires k.procs[c].parent in k.procs && c in k.procs[k.procs[c].parent].children && k.procs[c].parent < c
    requires FamilyOk(k, p) && FamilyOk(k, k.procs[c].parent)
    ensures FamilyOk(Removed(k, c, ptrs), p)
  {
    var q := k.procs[c].parent;
    WithoutMembers(k.procs[q].children, c);
    assert k.procs[p].parent != c;
    if p != q {
      assert c !in k.procs[p].children;
    }
  }

  lemma RemovedAwaits(k: K, c: Pid, ptrs: int, p: Pid)
    requires c in k.procs && p in k.procs && p != c
    requires k.procs[c].parent in k.procs && c in k.procs[k.procs[c].parent].children && k.procs[c].parent < c
    requires StillAwaits(k, p) && FamilyOk(k, k.procs[c].parent)
    ensures StillAwaits(Removed(k, c, ptrs), p)
  {
    WithoutMembers(k.procs[k.procs[c].parent].children, c);
  }

  lemma RemovedZombies(k: K, c: Pid, ptrs: int)
    requires FamilyInv(k) && SchedInv(k) && c in k.zombies && c in k.procs
    requires k.procs[c].parent in k.procs && c in k.procs[k.procs[c].parent].children
    ensures var k1 := Removed(k, c, ptrs);
            forall p :: p in k1.zombies && p in k1.procs ==> k1.procs[p].children == [] && k1.procs[p].semDescs == []
  {
    WithoutMembers(k.zombies, c);
    forall p | p in k.zombies ensures p in k.procs && k.procs[p].children == [] && k.procs[p].semDescs == [] {
      assert Placed(k, p, Zombie);
    }
  }

  lemma RemovedPools(k: K, c: Pid, ptrs: int)
    requires PoolInv(k) && c in k.procs && k.procs[c].semDescs == []
    requires k.procs[c].parent in k.procs && k.procs[c].parent != c
    ensures PoolInv(Removed(k, c, ptrs))
  {
    var k1 := Removed(k, c, ptrs);
    assert k1.procs.Keys == k.procs.Keys - {c};
    assert |k1.procs| == |k1.procs.Keys| && |k.procs| == |k.procs.Keys|;
    assert forall i :: 0 < i < |k1.freePcbs| ==> k1.freePcbs[i] == k.freePcbs[i - 1];
  }

  // ---- the hand-over to a waiting parent, as moves

  function ToReady(k: K, w: Pid): K
    requires w in k.procs
  {
    Put(k, w, k.procs[w].(status := Ready)).(waiting := Without(k.waiting, w), ready := k.ready + [w])
  }

  lemma ToReadyMove(k: K, w: Pid)
    requires Inv(k) && w in k.waiting && w in k.procs && k.procs[w].call == CALL_WAIT
    ensures Inv(ToReady(k, w))
  {
    hide SchedInv, ReasonInv, TimerInv, DescInv, FamilyInv, PoolInv;
    var k1 := ToReady(k, w);
    ToReadySched(k, w);
    NotRunning(k);
    FrameReasons(k, k1);
    FrameTimers(k, k1);
    FrameDesc(k, k1);
    FrameFamily(k, k1);
    FramePools(k, k1);
  }

  lemma ToReadySched(k: K, w: Pid)
    requires SchedInv(k) && w in k.waiting && w in k.procs
    ensures SchedInv(ToReady(k, w))
    ensures forall p :: p in ToReady(k, w).waiting <==> p in k.waiting && p != w
  {
    var k1 := ToReady(k, w);
    WithoutMembers(k.waiting, w);
    assert Placed(k, w, Waiting) && !Placed(k, w, Ready);
    forall p | p in k1.ready ensures Placed(k1, p, Ready) { assert p in k.ready ==> Placed(k, p, Ready); }
    forall p | p in k1.waiting ensures Placed(k1, p, Waiting) { assert Placed(k, p, Waiting); }
    forall p | p in k1.zombies ensures Placed(k1, p, Zombie) { assert Placed(k, p, Zombie); }
    forall p | p in k1.procs ensures p == k1.running || !Unlinked(k1, p) {
      assert p == k.running || !Unlinked(k, p);
      assert w in k1.ready;
    }
  }

  function TakeLast(k: K): K
    requires k.ready != []
  {
    k.(running := k.ready[|k.ready| - 1], ready := k.ready[..|k.ready| - 1])
  }

  lemma TakeLastMove(k: K)
    requires Inv(k) && k.running == NULL && k.ready != []
    ensures Inv(TakeLast(k)) && TakeLast(k).running in k.procs
  {
    hide SchedInv, ReasonInv, TimerInv, DescInv, FamilyInv, PoolInv;
    var k1 := TakeLast(k);
    TakeLastSched(k);
    NotRunning(k);
    FrameReasons(k, k1);
    FrameTimers(k, k1);
    FrameDesc(k, k1);
    FrameFamily(k, k1);
    FramePools(k, k1);
  }

  lemma TakeLastSched(k: K)
    requires SchedInv(k) && k.running == NULL && k.ready != []
    ensures SchedInv(TakeLast(k)) && TakeLast(k).running in k.procs
  {
    var k1 := TakeLast(k);
    var l := k.ready[|k.ready| - 1];
    assert l in k.ready && Placed(k, l, Ready);
    forall p | p in k1.ready ensures Placed(k1, p, Ready) { assert p in k.ready && Placed(k, p, Ready); }
    forall p | p in k1.waiting ensures Placed(k1, p, Waiting) { assert Placed(k, p, Waiting); }
    forall p | p in k1.zombies ensures Placed(k1, p, Zombie) { assert Placed(k, p, Zombie); }
    forall p | p in k1.procs ensures p == k1.running || !Unlinked(k1, p) {
      assert !Unlinked(k, p);
      assert p in k.ready ==> p == l || p in k1.ready;
    }
  }

  lemma {:induction false} DropTimersNone(ts: seq<Timer>, p: Pid)
    requires forall i :: 0 <= i < |ts| ==> ts[i].pid != p
    ensures DropTimers(ts, p) == ts
  {
    if ts != [] {
      DropTimersNone(ts[1..], p);
    }
  }
}
