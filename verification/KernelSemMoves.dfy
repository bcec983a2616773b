/** The moves on semaphores and descriptors, each keeping the whole invariant. */
module KernelSemMoves {
  import opened Seqs
  import opened KernelState
  import opened KernelInvariant
  import opened KernelMoves
  import H = HandoffSemaphore

  ghost predicate SameQueues(k: K, k1: K) {
    && k1.running == k.running && k1.lastPid == k.lastPid && k1.ready == k.ready && k1.waiting == k.waiting
    && k1.zombies == k.zombies
    && k1.timers == k.timers && k1.freeTimers == k.freeTimers
    && k1.procs.Keys == k.procs.Keys
    && forall p :: p in k.procs ==> p in k1.procs && SameButDescs(k, k1, p)
  }

  ghost predicate SameButDescs(k: K, k1: K, p: Pid)
    requires p in k.procs && p in k1.procs
  {
    var a, b := k.procs[p], k1.procs[p];
    && a.status == b.status && a.call == b.call && a.arg0 == b.arg0 && a.hasTimer == b.hasTimer
    && a.parent == b.parent && a.children == b.children
    && (p == k.running || a.semDescs == b.semDescs)
  }

  lemma FrameSched(k: K, k1: K)
    requires SameQueues(k, k1) && SchedInv(k)
    ensures SchedInv(k1)
  {
    forall p | p in k1.ready ensures Placed(k1, p, Ready) { assert Placed(k, p, Ready); }
    forall p | p in k1.waiting ensures Placed(k1, p, Waiting) { assert Placed(k, p, Waiting); }
    forall p | p in k1.zombies ensures Placed(k1, p, Zombie) { assert Placed(k, p, Zombie); }
    forall p | p in k1.procs ensures p == k1.running || !Unlinked(k1, p) {
      assert p == k.running || !Unlinked(k, p);
    }
  }

  lemma FrameSleepers(k: K, k1: K)
    requires SameQueues(k, k1) && TimerInv(k)
    ensures TimerInv(k1)
  {
    forall i | 0 <= i < |k1.timers| ensures SleepsBy(k1, k1.timers[i]) { assert SleepsBy(k, k.timers[i]); }
  }

  lemma FrameKin(k: K, k1: K)
    requires SameQueues(k, k1) && FamilyInv(k) && SchedInv(k)
    ensures FamilyInv(k1)
  {
    forall p | p in k1.procs ensures FamilyOk(k1, p) { assert FamilyOk(k, p); }
    forall p | p in k1.waiting && p in k1.procs && k1.procs[p].call == CALL_WAIT ensures StillAwaits(k1, p) {
      assert StillAwaits(k, p);
    }
    forall p | p in k1.zombies ensures p != k.running { assert Placed(k, p, Zombie); }
  }

  /** A semaphore whose own record is unchanged stays sound when its nodes do and its waiters still wait. */
  lemma FrameSemNodes(k: K, k1: K, s: Ref)
    requires s in k.sems && SemOk(k, s) && s in k1.sems && k1.sems[s] == k.sems[s] && k1.nextRef >= k.nextRef
    requires forall q :: NodeOf(k, s, q) && (q in k.sems[s].descs || q in k.sems[s].waitingDescs) ==> NodeOf(k1, s, q)
    requires forall q :: q in k.sems[s].waitingDescs && WaitsThrough(k, q) ==> WaitsThrough(k1, q)
    ensures SemOk(k1, s)
  {
  }

  /** The reasons of those who wait last as long as they wait and no semaphore forgets them. */
  lemma FrameBlocked(k: K, k1: K)
    requires ReasonInv(k) && k1.timers == k.timers
    requires forall p :: p in k1.waiting ==>
               && p in k.procs && p in k1.procs && k1.procs[p].semDescs == k.procs[p].semDescs
               && k1.procs[p].call == k.procs[p].call && k1.procs[p].arg0 == k.procs[p].arg0
               && (p in k.waiting || ReasonOk(k1, p))
    requires forall p, d :: (p in k1.waiting && p in k.procs && BlockedBy(k, p, d) && d in k.procs[p].semDescs) ==>
               BlockedBy(k1, p, d)
    ensures ReasonInv(k1)
  {
    forall p | p in k1.waiting ensures ReasonOk(k1, p) {
      if p in k.waiting {
        assert ReasonOk(k, p);
        KeepReason(k, k1, p);
      }
    }
  }

  // ---- counting

  /** The count may change as long as it still matches the waiting list. */
  lemma CountMove(k: K, s: Ref, count: int)
    requires Inv(k) && s in k.sems && |k.sems[s].waitingDescs| == H.Max0(-count)
    ensures Inv(SetSem(k, s, k.sems[s].(count := count)))
  {
    hide SchedInv, ReasonInv, TimerInv, DescInv, FamilyInv, PoolInv;
    var k1 := SetSem(k, s, k.sems[s].(count := count));
    FrameSched(k, k1);
    FrameSleepers(k, k1);
    FrameKin(k, k1);
    CountDescs(k, s, count);
    CountRest(k, k1, s);
  }

  lemma CountDescs(k: K, s: Ref, count: int)
    requires DescInv(k) && s in k.sems && |k.sems[s].waitingDescs| == H.Max0(-count)
    ensures DescInv(SetSem(k, s, k.sems[s].(count := count)))
  {
    var k1 := SetSem(k, s, k.sems[s].(count := count));
    forall d | d in k1.descs ensures DescOk(k1, d) { assert DescOk(k, d); }
    forall q | q in k1.ptrs ensures PtrOk(k1, q) { assert PtrOk(k, q); }
    forall p | p in k1.procs ensures ProcDescsOk(k1, p) { assert ProcDescsOk(k, p); }
    forall t | t in k1.sems ensures SemOk(k1, t) {
      assert SemOk(k, t);
      forall q | q in k.sems[t].descs || q in k.sems[t].waitingDescs ensures NodeOf(k1, t, q) {
        assert NodeOf(k, t, q);
      }
      forall q | q in k.sems[t].waitingDescs ensures WaitsThrough(k1, q) { assert WaitsThrough(k, q); }
    }
  }

  lemma CountRest(k: K, k1: K, s: Ref)
    requires ReasonInv(k) && PoolInv(k) && SchedInv(k) && s in k.sems
    requires exists c :: k1 == SetSem(k, s, k.sems[s].(count := c))
    ensures ReasonInv(k1) && PoolInv(k1)
  {
    forall p | p in k.waiting ensures p in k.procs { assert Placed(k, p, Waiting); }
    forall p, d | p in k.procs && BlockedBy(k, p, d) ensures BlockedBy(k1, p, d) {}
    FrameBlocked(k, k1);
    assert k1.sems.Keys == k.sems.Keys && |k1.sems| == |k1.sems.Keys| && |k.sems| == |k.sems.Keys|;
  }

  // ---- blocking

  /** The caller's descriptor for the semaphore it is about to block on. */
  ghost predicate Blocks(k: K, d: Ref) {
    && k.running in k.procs && k.procs[k.running].call == CALL_SEMWAIT
    && d in k.procs[k.running].semDescs && d in k.descs && k.descs[d].fd == k.procs[k.running].arg0
    && k.descs[d].sem in k.sems && k.sems[k.descs[d].sem].count <= 0
  }

  /** A running process's node is in the semaphore's open list, so blocking finds it there. */
  lemma OpenNode(k: K, d: Ref)
    requires DescInv(k) && SchedInv(k) && k.running in k.procs && d in k.procs[k.running].semDescs
    ensures d in k.descs && k.descs[d].pid == k.running && k.descs[d].ptr != NULL && k.descs[d].sem != NULL
    ensures k.descs[d].ptr in k.ptrs && k.ptrs[k.descs[d].ptr] == d
    ensures k.descs[d].sem in k.sems && k.descs[d].ptr in k.sems[k.descs[d].sem].descs
    ensures k.descs[d].ptr !in k.sems[k.descs[d].sem].waitingDescs
  {
    assert ProcDescsOk(k, k.running);
    assert DescOk(k, d);
    var s, q := k.descs[d].sem, k.descs[d].ptr;
    assert SemOk(k, s) && PtrOk(k, q);
    assert !Placed(k, k.running, Waiting);
    assert !WaitsThrough(k, q);
  }

  function BlockedSem(k: K, d: Ref): K
    requires d in k.descs && k.descs[d].sem in k.sems
  {
    var s, q := k.descs[d].sem, k.descs[d].ptr;
    var x := k.sems[s];
    SetSem(k, s, x.(count := x.count - 1, descs := Without(x.descs, q), waitingDescs := x.waitingDescs + [q]))
  }

  lemma ParkForSem(k: K, d: Ref)
    requires Inv(k) && Blocks(k, d)
    ensures Park(BlockedSem(k, d)).Ok? && Inv(Park(BlockedSem(k, d)).value)
  {
    hide SchedInv, ReasonInv, TimerInv, DescInv, FamilyInv, PoolInv;
    OpenNode(k, d);
    ParkSched(k);
    NotRunning(k);
    var k2 := Park(k).value;
    var k1 := Park(BlockedSem(k, d)).value;
    FrameSched(k2, k1);
    FrameTimers(k, k1);
    FrameFamily(k, k1);
    ParkedDescs(k, d);
    ParkedReasons(k, d);
    FrameSizes(k, k1);
  }

  lemma FrameSizes(k: K, k1: K)
    requires PoolInv(k) && SamePools(k, k1)
    requires k1.procs.Keys == k.procs.Keys && k1.sems.Keys == k.sems.Keys
    requires k1.descs == k.descs && k1.ptrs == k.ptrs
    ensures PoolInv(k1)
  {
    assert |k1.procs| == |k1.procs.Keys| && |k.procs| == |k.procs.Keys|;
    assert |k1.sems| == |k1.sems.Keys| && |k.sems| == |k.sems.Keys|;
  }

  lemma ParkedDescs(k: K, d: Ref)
    requires DescInv(k) && SchedInv(k) && Blocks(k, d) && Park(BlockedSem(k, d)).Ok?
    ensures DescInv(Park(BlockedSem(k, d)).value)
  {
    hide SemOk, DescOk, SchedInv;
    OpenNode(k, d);
    var k1 := Park(BlockedSem(k, d)).value;
    forall e | e in k1.descs ensures DescOk(k1, e) { ParkedDesc(k, d, e); }
    forall r | r in k1.ptrs ensures PtrOk(k1, r) { assert PtrOk(k, r); }
    forall p | p in k1.procs ensures ProcDescsOk(k1, p) { assert ProcDescsOk(k, p); }
    forall t | t in k1.sems ensures SemOk(k1, t) { ParkedSem(k, d, t); }
  }

  lemma ParkedDesc(k: K, d: Ref, e: Ref)
    requires DescInv(k) && SchedInv(k) && Blocks(k, d) && Park(BlockedSem(k, d)).Ok? && e in k.descs
    ensures DescOk(Park(BlockedSem(k, d)).value, e)
  {
    OpenNode(k, d);
    assert DescOk(k, e) && SemOk(k, k.descs[d].sem);
    WithoutMembers(k.sems[k.descs[d].sem].descs, k.descs[d].ptr);
  }

  lemma ParkedSem(k: K, d: Ref, t: Ref)
    requires DescInv(k) && SchedInv(k) && Blocks(k, d) && Park(BlockedSem(k, d)).Ok? && t in k.sems
    ensures SemOk(Park(BlockedSem(k, d)).value, t)
  {
    OpenNode(k, d);
    var k1 := Park(BlockedSem(k, d)).value;
    var s, q := k.descs[d].sem, k.descs[d].ptr;
    assert SemOk(k, s) && SemOk(k, t) && NodeOf(k, s, q);
    WithoutMembers(k.sems[s].descs, q);
    forall r | r in k.sems[t].descs || r in k.sems[t].waitingDescs ensures NodeOf(k1, t, r) { assert NodeOf(k, t, r); }
    forall r | r in k.sems[t].waitingDescs ensures WaitsThrough(k1, r) { assert WaitsThrough(k, r); }
    assert WaitsThrough(k1, q);
  }

  lemma ParkedReasons(k: K, d: Ref)
    requires ReasonInv(k) && DescInv(k) && SchedInv(k) && Blocks(k, d) && Park(BlockedSem(k, d)).Ok?
    ensures ReasonInv(Park(BlockedSem(k, d)).value)
  {
    var k1 := Park(BlockedSem(k, d)).value;
    OpenNode(k, d);
    NotRunning(k);
    assert BlockedBy(k1, k.running, d);
    forall p, e | p in k.procs && BlockedBy(k, p, e) ensures p != k.running ==> BlockedBy(k1, p, e) {}
    FrameBlocked(k, k1);
  }

  // ---- handing a permit over

  /** Two waiting nodes belong to two processes. */
  lemma OneBlockEach(k: K, s: Ref, q: Ref, t: Ref, r: Ref)
    requires DescInv(k) && s in k.sems && q in k.sems[s].waitingDescs && t in k.sems && r in k.sems[t].waitingDescs
    requires q != r
    ensures q in k.ptrs && k.ptrs[q] in k.descs && r in k.ptrs && k.ptrs[r] in k.descs
    ensures k.descs[k.ptrs[q]].pid != k.descs[k.ptrs[r]].pid
  {
    assert SemOk(k, s) && SemOk(k, t);
    assert NodeOf(k, s, q) && WaitsThrough(k, q) && NodeOf(k, t, r) && WaitsThrough(k, r);
    var d, e := k.ptrs[q], k.ptrs[r];
    assert PtrOk(k, q) && PtrOk(k, r) && DescOk(k, d) && DescOk(k, e);
    assert ProcDescsOk(k, k.descs[d].pid);
  }

  ghost predicate CanHandOff(k: K, s: Ref) {
    k.running == NULL && s in k.sems && k.sems[s].count < 0
  }

  /** The process at the head of the semaphore's waiting list. */
  ghost function Head(k: K, s: Ref): Pid
    requires DescInv(k) && CanHandOff(k, s)
    ensures k.sems[s].waitingDescs != []
    ensures var q := k.sems[s].waitingDescs[0];
            q in k.ptrs && k.ptrs[q] in k.descs && Head(k, s) == k.descs[k.ptrs[q]].pid
  {
    assert SemOk(k, s);
    var q := k.sems[s].waitingDescs[0];
    assert NodeOf(k, s, q);
    k.descs[k.ptrs[q]].pid
  }

  function Counted(k: K, s: Ref): K
    requires s in k.sems
  {
    SetSem(k, s, k.sems[s].(count := k.sems[s].count + 1))
  }

  lemma HandOffMove(k: K, s: Ref)
    requires Inv(k) && CanHandOff(k, s)
    ensures HandOff(Counted(k, s), s).Ok? && Inv(HandOff(Counted(k, s), s).value)
    ensures HandOff(Counted(k, s), s).value.running == Head(k, s)
  {
    hide SchedInv, ReasonInv, TimerInv, DescInv, FamilyInv, PoolInv;
    HeadWaits(k, s);
    HandOffSched(k, s);
    var k1 := HandOff(Counted(k, s), s).value;
    FrameTimers(k, k1);
    FrameFamily(k, k1);
    HandOffDescs(k, s);
    HandOffReasons(k, s);
    FrameSizes(k, k1);
  }

  lemma HeadWaits(k: K, s: Ref)
    requires DescInv(k) && SchedInv(k) && CanHandOff(k, s)
    ensures var w := Head(k, s); w in k.waiting && w in k.procs && k.procs[w].call == CALL_SEMWAIT
    ensures Head(k, s) in k.procs && k.procs[Head(k, s)].status == Waiting
    ensures forall p :: p in k.waiting ==> p in k.procs
  {
    assert SemOk(k, s);
    var q := k.sems[s].waitingDescs[0];
    assert q in k.sems[s].waitingDescs && WaitsThrough(k, q);
    forall p | p in k.waiting ensures p in k.procs && k.procs[p].status == Waiting { assert Placed(k, p, Waiting); }
  }

  lemma HandOffSched(k: K, s: Ref)
    requires DescInv(k) && SchedInv(k) && CanHandOff(k, s)
    requires Head(k, s) in k.waiting
    ensures HandOff(Counted(k, s), s).Ok? && SchedInv(HandOff(Counted(k, s), s).value)
    ensures forall p :: p in HandOff(Counted(k, s), s).value.waiting <==> p in k.waiting && p != Head(k, s)
  {
    var w := Head(k, s);
    var k1 := HandOff(Counted(k, s), s).value;
    WithoutMembers(k.waiting, w);
    assert Placed(k, w, Waiting);
    forall p | p in k1.ready ensures Placed(k1, p, Ready) { assert Placed(k, p, Ready); }
    forall p | p in k1.waiting ensures Placed(k1, p, Waiting) { assert Placed(k, p, Waiting); }
    forall p | p in k1.zombies ensures Placed(k1, p, Zombie) { assert Placed(k, p, Zombie); }
    forall p | p in k1.procs ensures p == k1.running || !Unlinked(k1, p) { assert !Unlinked(k, p); }
  }

  lemma HandOffDescs(k: K, s: Ref)
    requires DescInv(k) && SchedInv(k) && CanHandOff(k, s) && HandOff(Counted(k, s), s).Ok?
    requires forall p :: p in HandOff(Counted(k, s), s).value.waiting <==> p in k.waiting && p != Head(k, s)
    ensures DescInv(HandOff(Counted(k, s), s).value)
  {
    hide SemOk, DescOk;
    var k1 := HandOff(Counted(k, s), s).value;
    forall e | e in k1.descs ensures DescOk(k1, e) { HandOffDesc(k, s, e); }
    forall r | r in k1.ptrs ensures PtrOk(k1, r) { assert PtrOk(k, r); }
    forall p | p in k1.procs ensures ProcDescsOk(k1, p) { assert ProcDescsOk(k, p); }
    forall t | t in k1.sems ensures SemOk(k1, t) { HandOffSem(k, s, t); }
  }

  lemma HandOffDesc(k: K, s: Ref, e: Ref)
    requires DescInv(k) && CanHandOff(k, s) && HandOff(Counted(k, s), s).Ok? && e in k.descs
    ensures DescOk(HandOff(Counted(k, s), s).value, e)
  {
    var x := k.sems[s];
    assert SemOk(k, s) && DescOk(k, e);
    assert forall r :: r in x.waitingDescs ==> r == x.waitingDescs[0] || r in x.waitingDescs[1..];
  }

  lemma HandOffSem(k: K, s: Ref, t: Ref)
    requires DescInv(k) && CanHandOff(k, s) && HandOff(Counted(k, s), s).Ok? && t in k.sems
    requires forall p :: p in HandOff(Counted(k, s), s).value.waiting <==> p in k.waiting && p != Head(k, s)
    ensures SemOk(HandOff(Counted(k, s), s).value, t)
  {
    var k1 := HandOff(Counted(k, s), s).value;
    assert SemOk(k, s) && SemOk(k, t);
    var x, y := k.sems[s], k.sems[t];
    var q := x.waitingDescs[0];
    assert q in x.waitingDescs && q !in x.waitingDescs[1..] && NodeOf(k, s, q);
    forall r | r in y.descs || r in y.waitingDescs ensures NodeOf(k1, t, r) { assert NodeOf(k, t, r); }
    forall r | r in k1.sems[t].waitingDescs ensures WaitsThrough(k1, r) && r in y.waitingDescs {
      assert r in y.waitingDescs && WaitsThrough(k, r) && NodeOf(k, t, r) && r != q;
      OneBlockEach(k, s, q, t, r);
    }
  }

  lemma HandOffReasons(k: K, s: Ref)
    requires ReasonInv(k) && DescInv(k) && SchedInv(k) && CanHandOff(k, s) && HandOff(Counted(k, s), s).Ok?
    requires forall p :: p in HandOff(Counted(k, s), s).value.waiting <==> p in k.waiting && p != Head(k, s)
    ensures ReasonInv(HandOff(Counted(k, s), s).value)
  {
    var k1 := HandOff(Counted(k, s), s).value;
    HeadWaits(k, s);
    var x := k.sems[s];
    var q := x.waitingDescs[0];
    forall p, d | p in k1.waiting && p in k.procs && BlockedBy(k, p, d) && d in k.procs[p].semDescs
      ensures BlockedBy(k1, p, d)
    {
      assert ProcDescsOk(k, p) && DescOk(k, d);
      if k.descs[d].sem == s {
        assert k.descs[d].ptr != q;
        assert forall r :: r in x.waitingDescs ==> r == q || r in x.waitingDescs[1..];
      }
    }
    FrameBlocked(k, k1);
  }

  // ---- opening

  lemma AllocSemMove(k: K, id: int, count: int)
    requires Inv(k) && k.freeSems != [] && count >= 0
    requires forall s :: s in k.sems ==> k.sems[s].id != id
    ensures Inv(AllocSem(k, id, count))
    ensures AllocSem(k, id, count).sems[k.nextRef] == Semaphore(id, count, [], [])
  {
    hide SchedInv, ReasonInv, TimerInv, DescInv, FamilyInv, PoolInv;
    var k1 := AllocSem(k, id, count);
    FrameSched(k, k1);
    FrameSleepers(k, k1);
    FrameKin(k, k1);
    AllocSemRest(k, id, count);
  }

  lemma AllocSemRest(k: K, id: int, count: int)
    requires DescInv(k) && PoolInv(k) && ReasonInv(k) && k.freeSems != [] && count >= 0
    requires forall s :: s in k.sems ==> k.sems[s].id != id
    ensures AllocSem(k, id, count).sems[k.nextRef] == Semaphore(id, count, [], [])
    ensures DescInv(AllocSem(k, id, count))
    ensures PoolInv(AllocSem(k, id, count)) && ReasonInv(AllocSem(k, id, count))
  {
    var k1 := AllocSem(k, id, count);
    var s := k.nextRef;
    assert s !in k.sems by { assert forall t :: t in k.sems ==> SemOk(k, t); }
    AllocSemDescs(k, id, count);
    forall p, d | p in k.procs && BlockedBy(k, p, d) ensures BlockedBy(k1, p, d) {}
    forall p | p in k.waiting ensures p in k.procs { assert ReasonOk(k, p); }
    FrameBlocked(k, k1);
    assert forall i :: 0 <= i < |k1.freeSems| ==> k1.freeSems[i] == k.freeSems[i + 1];
  }

  lemma AllocSemDescs(k: K, id: int, count: int)
    requires DescInv(k) && k.freeSems != [] && k.freeSems[0] == [] && count >= 0 && k.nextRef !in k.sems
    requires forall s :: s in k.sems ==> k.sems[s].id != id
    ensures DescInv(AllocSem(k, id, count))
  {
    var k1 := AllocSem(k, id, count);
    forall e | e in k1.descs ensures DescOk(k1, e) { assert DescOk(k, e); }
    forall r | r in k1.ptrs ensures PtrOk(k1, r) { assert PtrOk(k, r); }
    forall p | p in k1.procs ensures ProcDescsOk(k1, p) { assert ProcDescsOk(k, p); }
    forall r, t | NodeOf(k, t, r) ensures NodeOf(k1, t, r) {}
    forall r | WaitsThrough(k, r) ensures WaitsThrough(k1, r) {}
    forall t | t in k1.sems ensures SemOk(k1, t) {
      if t != k.nextRef { assert SemOk(k, t); FrameSemNodes(k, k1, t); }
    }
  }

  /** The state after both descriptor nodes of an open semaphore are in place. */
  function Opened(k: K, s: Ref): K
    requires k.running in k.procs && s in k.sems
  {
    var me := k.procs[k.running];
    var d, q := k.nextRef, k.nextRef + 1;
    SetSem(Put(k, k.running, me.(semDescs := me.semDescs + [d], lastSemFd := me.lastSemFd + 1)),
           s, k.sems[s].(descs := k.sems[s].descs + [q]))
    .(descs := k.descs[d := SemDesc(k.running, s, me.lastSemFd, q)], ptrs := k.ptrs[q := d],
      freeDescs := k.freeDescs - 1, freePtrs := k.freePtrs - 1, nextRef := k.nextRef + 2)
  }

  lemma OpenedMove(k: K, s: Ref)
    requires Inv(k) && k.running in k.procs && s in k.sems && k.freeDescs > 0
    ensures Inv(Opened(k, s))
  {
    hide SchedInv, ReasonInv, TimerInv, DescInv, FamilyInv, PoolInv;
    var k1 := Opened(k, s);
    FrameSched(k, k1);
    FrameSleepers(k, k1);
    FrameKin(k, k1);
    OpenedDescs(k, s);
    OpenedReasons(k, s);
    OpenedPools(k, s);
  }

  lemma FreshRefs(k: K)
    requires DescInv(k)
    ensures forall r :: r >= k.nextRef ==> r !in k.descs && r !in k.ptrs && r !in k.sems
  {
    forall r | r >= k.nextRef ensures r !in k.descs && r !in k.ptrs && r !in k.sems {
      assert r in k.descs ==> DescOk(k, r);
      assert r in k.ptrs ==> PtrOk(k, r);
      assert r in k.sems ==> SemOk(k, r);
    }
  }

  lemma OpenedDescs(k: K, s: Ref)
    requires DescInv(k) && SchedInv(k) && k.running in k.procs && s in k.sems
    ensures DescInv(Opened(k, s))
  {
    hide DescOk, PtrOk, SemOk, ProcDescsOk, SchedInv;
    var k1 := Opened(k, s);
    FreshRefs(k);
    forall t | t in k1.sems ensures SemOk(k1, t) { OpenedSem(k, s, t); }
    forall e | e in k1.descs ensures DescOk(k1, e) { OpenedDesc(k, s, e); }
    forall r | r in k1.ptrs ensures PtrOk(k1, r) { OpenedPtr(k, s, r); }
    forall p | p in k1.procs ensures ProcDescsOk(k1, p) { OpenedProc(k, s, p); }
  }

  lemma OpenedDesc(k: K, s: Ref, e: Ref)
    requires DescInv(k) && k.running in k.procs && s in k.sems && e in Opened(k, s).descs
    ensures DescOk(Opened(k, s), e)
  {
    FreshRefs(k);
    if e != k.nextRef { assert DescOk(k, e); }
  }

  lemma OpenedPtr(k: K, s: Ref, r: Ref)
    requires DescInv(k) && k.running in k.procs && s in k.sems && r in Opened(k, s).ptrs
    ensures PtrOk(Opened(k, s), r)
  {
    FreshRefs(k);
    if r != k.nextRef + 1 { assert PtrOk(k, r); }
  }

  lemma OpenedProc(k: K, s: Ref, p: Pid)
    requires DescInv(k) && k.running in k.procs && s in k.sems && p in k.procs
    ensures ProcDescsOk(Opened(k, s), p)
  {
    FreshRefs(k);
    assert ProcDescsOk(k, p) && k.nextRef !in k.procs[p].semDescs;
  }

  lemma OpenedSem(k: K, s: Ref, t: Ref)
    requires DescInv(k) && SchedInv(k) && k.running in k.procs && s in k.sems && t in k.sems
    ensures SemOk(Opened(k, s), t)
  {
    var k1 := Opened(k, s);
    var q := k.nextRef + 1;
    FreshRefs(k);
    NotRunning(k);
    assert SemOk(k, t);
    var x := k.sems[t];
    forall r | r in x.descs || r in x.waitingDescs ensures NodeOf(k1, t, r) && r != q { assert NodeOf(k, t, r); }
    forall r | r in x.waitingDescs ensures WaitsThrough(k1, r) { assert WaitsThrough(k, r); }
    assert NodeOf(k1, s, q);
  }

  lemma OpenedReasons(k: K, s: Ref)
    requires DescInv(k) && ReasonInv(k) && SchedInv(k) && k.running in k.procs && s in k.sems
    ensures ReasonInv(Opened(k, s))
  {
    var k1 := Opened(k, s);
    assert k.nextRef !in k.descs by { assert forall e :: e in k.descs ==> DescOk(k, e); }
    NotRunning(k);
    forall p, d | p in k.procs && BlockedBy(k, p, d) ensures p != k.running ==> BlockedBy(k1, p, d) {}
    FrameBlocked(k, k1);
  }

  lemma OpenedPools(k: K, s: Ref)
    requires DescInv(k) && PoolInv(k) && k.running in k.procs && s in k.sems
    ensures PoolInv(Opened(k, s))
  {
    var k1 := Opened(k, s);
    assert k.nextRef !in k.descs by { assert forall e :: e in k.descs ==> DescOk(k, e); }
    assert k.nextRef + 1 !in k.ptrs by { assert forall r :: r in k.ptrs ==> PtrOk(k, r); }
    assert k1.procs.Keys == k.procs.Keys && |k1.procs| == |k1.procs.Keys| && |k.procs| == |k.procs.Keys|;
    assert k1.sems.Keys == k.sems.Keys && |k1.sems| == |k1.sems.Keys| && |k.sems| == |k.sems.Keys|;
  }

  // ---- closing

  /** The state after the caller's descriptor and its node are gone, the semaphore still there. */
  function Closed(k: K, d: Ref): K
    requires k.running in k.procs && d in k.descs && k.descs[d].sem in k.sems
  {
    var me := k.procs[k.running];
    var s, q := k.descs[d].sem, k.descs[d].ptr;
    SetSem(Put(k, k.running, me.(semDescs := Without(me.semDescs, d))), s,
           k.sems[s].(descs := Without(k.sems[s].descs, q)))
    .(descs := k.descs - {d}, ptrs := k.ptrs - {q}, freeDescs := k.freeDescs + 1, freePtrs := k.freePtrs + 1)
  }

  lemma ClosedMove(k: K, d: Ref)
    requires Inv(k) && k.running in k.procs && d in k.procs[k.running].semDescs
    ensures d in k.descs && k.descs[d].sem in k.sems
    ensures Inv(Closed(k, d))
  {
    hide SchedInv, ReasonInv, TimerInv, DescInv, FamilyInv, PoolInv;
    OpenNode(k, d);
    var k1 := Closed(k, d);
    FrameSched(k, k1);
    FrameSleepers(k, k1);
    FrameKin(k, k1);
    ClosedDescs(k, d);
    ClosedReasons(k, d);
    ClosedPools(k, d);
  }

  lemma ClosedDescs(k: K, d: Ref)
    requires DescInv(k) && SchedInv(k) && k.running in k.procs && d in k.procs[k.running].semDescs
    requires d in k.descs && k.descs[d].sem in k.sems
    ensures DescInv(Closed(k, d))
  {
    hide DescOk, PtrOk, SemOk, ProcDescsOk, SchedInv;
    var k1 := Closed(k, d);
    OpenNode(k, d);
    forall e | e in k1.descs ensures DescOk(k1, e) { ClosedDesc(k, d, e); }
    forall r | r in k1.ptrs ensures PtrOk(k1, r) { ClosedPtr(k, d, r); }
    forall p | p in k1.procs ensures ProcDescsOk(k1, p) { ClosedProc(k, d, p); }
    forall t | t in k1.sems ensures SemOk(k1, t) { ClosedSem(k, d, t); }
  }

  lemma ClosedDesc(k: K, d: Ref, e: Ref)
    requires DescInv(k) && SchedInv(k) && k.running in k.procs && d in k.procs[k.running].semDescs
    requires d in k.descs && k.descs[d].sem in k.sems && e in k.descs && e != d
    ensures DescOk(Closed(k, d), e)
  {
    OpenNode(k, d);
    var s, q := k.descs[d].sem, k.descs[d].ptr;
    assert SemOk(k, s) && DescOk(k, e) && ProcDescsOk(k, k.running);
    WithoutMembers(k.procs[k.running].semDescs, d);
    WithoutMembers(k.sems[s].descs, q);
  }

  lemma ClosedPtr(k: K, d: Ref, r: Ref)
    requires DescInv(k) && SchedInv(k) && k.running in k.procs && d in k.procs[k.running].semDescs
    requires d in k.descs && k.descs[d].sem in k.sems && r in Closed(k, d).ptrs
    ensures PtrOk(Closed(k, d), r)
  {
    OpenNode(k, d);
    assert PtrOk(k, r);
  }

  lemma ClosedProc(k: K, d: Ref, p: Pid)
    requires DescInv(k) && SchedInv(k) && k.running in k.procs && d in k.procs[k.running].semDescs
    requires d in k.descs && k.descs[d].sem in k.sems && p in k.procs
    ensures ProcDescsOk(Closed(k, d), p)
  {
    OpenNode(k, d);
    assert ProcDescsOk(k, p) && ProcDescsOk(k, k.running);
    WithoutMembers(k.procs[k.running].semDescs, d);
    assert p != k.running ==> d !in k.procs[p].semDescs;
  }

  lemma ClosedSem(k: K, d: Ref, t: Ref)
    requires DescInv(k) && SchedInv(k) && k.running in k.procs && d in k.procs[k.running].semDescs
    requires d in k.descs && k.descs[d].sem in k.sems && t in k.sems
    ensures SemOk(Closed(k, d), t)
  {
    var k1 := Closed(k, d);
    OpenNode(k, d);
    NotRunning(k);
    var s, q := k.descs[d].sem, k.descs[d].ptr;
    assert SemOk(k, t) && SemOk(k, s);
    WithoutMembers(k.sems[s].descs, q);
    var x := k.sems[t];
    forall r | (r in x.descs || r in x.waitingDescs) && r != q ensures NodeOf(k1, t, r) {
      assert NodeOf(k, t, r) && PtrOk(k, r);
    }
    assert !WaitsThrough(k, q);
    assert t != s ==> !NodeOf(k, t, q);
    forall r | r in x.waitingDescs ensures WaitsThrough(k1, r) { assert WaitsThrough(k, r) && PtrOk(k, r); }
  }

  lemma ClosedReasons(k: K, d: Ref)
    requires DescInv(k) && ReasonInv(k) && SchedInv(k) && k.running in k.procs && d in k.procs[k.running].semDescs
    requires d in k.descs && k.descs[d].sem in k.sems
    ensures ReasonInv(Closed(k, d))
  {
    var k1 := Closed(k, d);
    NotRunning(k);
    assert ProcDescsOk(k, k.running);
    forall p, e | p in k1.waiting && p in k.procs && BlockedBy(k, p, e) && e in k.procs[p].semDescs
      ensures BlockedBy(k1, p, e)
    {
      assert ProcDescsOk(k, p);
    }
    FrameBlocked(k, k1);
  }

  lemma ClosedPools(k: K, d: Ref)
    requires DescInv(k) && PoolInv(k) && SchedInv(k) && k.running in k.procs && d in k.procs[k.running].semDescs
    requires d in k.descs && k.descs[d].sem in k.sems
    ensures PoolInv(Closed(k, d))
  {
    var k1 := Closed(k, d);
    OpenNode(k, d);
    RemoveCard(k.descs, d);
    RemoveCard(k.ptrs, k.descs[d].ptr);
    assert k1.procs.Keys == k.procs.Keys && |k1.procs| == |k1.procs.Keys| && |k.procs| == |k.procs.Keys|;
    assert k1.sems.Keys == k.sems.Keys && |k1.sems| == |k1.sems.Keys| && |k.sems| == |k.sems.Keys|;
  }

  lemma RemoveCard<T>(m: map<Ref, T>, x: Ref)
    requires x in m
    ensures |m - {x}| == |m| - 1
  {
    assert (m - {x}).Keys == m.Keys - {x};
    assert |m - {x}| == |(m - {x}).Keys| && |m| == |m.Keys|;
  }

  /** A semaphore is freed only when no descriptor of any process refers to it. */
  lemma NoneRefers(k: K, s: Ref)
    requires DescInv(k) && s in k.sems && k.sems[s].descs == [] && k.sems[s].waitingDescs == []
    ensures forall d :: d in k.descs ==> k.descs[d].sem != s
  {
    forall d | d in k.descs ensures k.descs[d].sem != s { assert DescOk(k, d); }
  }

  lemma FreeSemMove(k: K, s: Ref)
    requires Inv(k) && s in k.sems && k.sems[s].descs == [] && k.sems[s].waitingDescs == []
    ensures FreeSem(k, s).Ok? && Inv(FreeSem(k, s).value)
  {
    hide SchedInv, ReasonInv, TimerInv, DescInv, FamilyInv, PoolInv;
    FreeSemRest(k, s);
    var k1 := FreeSem(k, s).value;
    FrameSched(k, k1);
    FrameSleepers(k, k1);
    FrameKin(k, k1);
  }

  lemma FreeSemRest(k: K, s: Ref)
    requires DescInv(k) && ReasonInv(k) && PoolInv(k)
    requires s in k.sems && k.sems[s].descs == [] && k.sems[s].waitingDescs == []
    ensures FreeSem(k, s).Ok? && DescInv(FreeSem(k, s).value)
    ensures ReasonInv(FreeSem(k, s).value) && PoolInv(FreeSem(k, s).value)
  {
    NoneRefers(k, s);
    WithoutMembers(k.semList, s);
    RemoveCard(k.sems, s);
    var k1 := FreeSem(k, s).value;
    FreeSemDescs(k, s);
    forall p, d | p in k.procs && BlockedBy(k, p, d) ensures BlockedBy(k1, p, d) {}
    forall p | p in k.waiting ensures p in k.procs { assert ReasonOk(k, p); }
    FrameBlocked(k, k1);
  }

  lemma FreeSemDescs(k: K, s: Ref)
    requires DescInv(k) && s in k.sems && FreeSem(k, s).Ok?
    requires forall d :: d in k.descs ==> k.descs[d].sem != s
    ensures DescInv(FreeSem(k, s).value)
  {
    var k1 := FreeSem(k, s).value;
    WithoutMembers(k.semList, s);
    forall r, t | NodeOf(k, t, r) ensures NodeOf(k1, t, r) {}
    forall r | WaitsThrough(k, r) ensures WaitsThrough(k1, r) {}
    forall e | e in k1.descs ensures DescOk(k1, e) { assert DescOk(k, e); }
    forall r | r in k1.ptrs ensures PtrOk(k1, r) { assert PtrOk(k, r); }
    forall p | p in k1.procs ensures ProcDescsOk(k1, p) { assert ProcDescsOk(k, p); }
    forall t | t in k1.sems ensures SemOk(k1, t) { assert SemOk(k, t); FrameSemNodes(k, k1, t); }
  }
}
