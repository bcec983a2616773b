/** The elementary moves all handlers are made of, each keeping the whole invariant. */
module KernelMoves {
  import opened Outcomes
  import opened Seqs
  import opened KernelState
  import opened KernelInvariant

  // ---- what a move of processes between queues leaves alone

  ghost predicate SameProc(a: Proc, b: Proc) {
    a.parent == b.parent && a.children == b.children && a.hasTimer == b.hasTimer
    && a.lastSemFd == b.lastSemFd && a.semDescs == b.semDescs
  }

  ghost predicate SameProcs(k: K, k1: K) {
    && k1.procs.Keys == k.procs.Keys && k1.lastPid == k.lastPid
    && forall p :: p in k.procs ==> p in k1.procs && SameProc(k.procs[p], k1.procs[p])
  }

  ghost predicate SameGraph(k: K, k1: K) {
    && k1.descs == k.descs && k1.ptrs == k.ptrs && k1.sems == k.sems && k1.semList == k.semList
    && k1.nextRef == k.nextRef
  }

  ghost predicate SamePools(k: K, k1: K) {
    k1.freePcbs == k.freePcbs && k1.freeSems == k.freeSems && k1.freeDescs == k.freeDescs && k1.freePtrs == k.freePtrs
  }

  /** Whoever waited by `call` still does, in the same call. */
  ghost predicate StillWait(k: K, k1: K, call: int) {
    forall p :: p in k.waiting && p in k.procs && k.procs[p].call == call ==>
      p in k1.waiting && p in k1.procs && k1.procs[p].call == call && k1.procs[p].arg0 == k.procs[p].arg0
  }

  lemma FrameDesc(k: K, k1: K)
    requires DescInv(k) && SameProcs(k, k1) && SameGraph(k, k1) && StillWait(k, k1, CALL_SEMWAIT)
    ensures DescInv(k1)
  {
    forall d | d in k1.descs ensures DescOk(k1, d) { assert DescOk(k, d); }
    forall q | q in k1.ptrs ensures PtrOk(k1, q) { assert PtrOk(k, q); }
    forall p | p in k1.procs ensures ProcDescsOk(k1, p) {
      assert ProcDescsOk(k, p) && SameProc(k.procs[p], k1.procs[p]);
    }
    forall s | s in k1.sems ensures SemOk(k1, s) { FrameSem(k, k1, s); }
  }

  lemma FrameSem(k: K, k1: K, s: Ref)
    requires s in k.sems && SemOk(k, s) && s in k1.sems && k1.sems[s] == k.sems[s]
    requires k1.descs == k.descs && k1.ptrs == k.ptrs && k1.nextRef >= k.nextRef && StillWait(k, k1, CALL_SEMWAIT)
    ensures SemOk(k1, s)
  {
    var x := k.sems[s];
    forall q | q in x.descs ensures NodeOf(k1, s, q) && q !in x.waitingDescs { assert NodeOf(k, s, q); }
    forall q | q in x.waitingDescs ensures NodeOf(k1, s, q) && WaitsThrough(k1, q) {
      assert NodeOf(k, s, q) && WaitsThrough(k, q);
    }
  }

  lemma FrameFamily(k: K, k1: K)
    requires FamilyInv(k) && SameProcs(k, k1) && k1.zombies == k.zombies
    requires forall p :: p in k1.procs && k1.procs[p].status == Zombie ==> p in k.procs && k.procs[p].status == Zombie
    requires forall p :: p in k1.waiting && p in k1.procs && k1.procs[p].call == CALL_WAIT ==>
               && p in k.procs && k1.procs[p].arg0 == k.procs[p].arg0
               && ((p in k.waiting && k.procs[p].call == CALL_WAIT) || StillAwaits(k, p))
    ensures FamilyInv(k1)
  {
    forall p | p in k1.procs ensures FamilyOk(k1, p) {
      assert FamilyOk(k, p) && SameProc(k.procs[p], k1.procs[p]);
    }
    forall p | p in k1.waiting && p in k1.procs && k1.procs[p].call == CALL_WAIT ensures StillAwaits(k1, p) {
      assert StillAwaits(k, p) && SameProc(k.procs[p], k1.procs[p]);
    }
  }

  lemma FrameTimers(k: K, k1: K)
    requires TimerInv(k) && SameProcs(k, k1) && k1.timers == k.timers && k1.freeTimers == k.freeTimers
    requires StillWait(k, k1, CALL_SLEEP)
    ensures TimerInv(k1)
  {
    forall i | 0 <= i < |k1.timers| ensures SleepsBy(k1, k1.timers[i]) { assert SleepsBy(k, k.timers[i]); }
    forall p | p in k1.procs ensures !k1.procs[p].hasTimer { assert SameProc(k.procs[p], k1.procs[p]); }
  }

  lemma FramePools(k: K, k1: K)
    requires PoolInv(k) && SameProcs(k, k1) && SameGraph(k, k1) && SamePools(k, k1)
    ensures PoolInv(k1)
  {
    assert |k1.procs| == |k1.procs.Keys| && |k.procs| == |k.procs.Keys|;
  }

  /** A process that still waits keeps its reason while its timer and its semaphore's waiting list last. */
  lemma KeepReason(k: K, k1: K, p: Pid)
    requires ReasonOk(k, p) && p in k1.procs && k1.procs[p].semDescs == k.procs[p].semDescs
    requires k1.procs[p].call == k.procs[p].call && k1.procs[p].arg0 == k.procs[p].arg0
    requires HasTimer(k.timers, p) ==> HasTimer(k1.timers, p)
    requires forall d :: d in k.procs[p].semDescs && BlockedBy(k, p, d) ==> BlockedBy(k1, p, d)
    ensures ReasonOk(k1, p)
  {
  }

  lemma FrameReasons(k: K, k1: K)
    requires ReasonInv(k) && SameProcs(k, k1) && SameGraph(k, k1)
    requires forall p :: p in k1.waiting && HasTimer(k.timers, p) ==> HasTimer(k1.timers, p)
    requires forall p :: p in k1.waiting ==>
               p in k1.procs && p in k.procs
               && k1.procs[p].call == k.procs[p].call && k1.procs[p].arg0 == k.procs[p].arg0
               && (p in k.waiting || ReasonOk(k1, p))
    ensures ReasonInv(k1)
  {
    forall p | p in k1.waiting ensures ReasonOk(k1, p) {
      if p in k.waiting {
        assert ReasonOk(k, p) && SameProc(k.procs[p], k1.procs[p]);
        forall d | BlockedBy(k, p, d) ensures BlockedBy(k1, p, d) {}
        KeepReason(k, k1, p);
      }
    }
  }

  // ---- moves

  lemma NotRunning(k: K)
    requires SchedInv(k)
    ensures forall p :: p in k.waiting ==> p in k.procs && p != k.running
  {
    forall p | p in k.waiting ensures p in k.procs && p != k.running { assert Placed(k, p, Waiting); }
  }

  lemma TouchSched(k: K, c: Proc)
    requires SchedInv(k) && k.running in k.procs
    ensures SchedInv(Put(k, k.running, c))
  {
    var k1 := Put(k, k.running, c);
    forall p | p in k1.ready ensures Placed(k1, p, Ready) { assert Placed(k, p, Ready); }
    forall p | p in k1.waiting ensures Placed(k1, p, Waiting) { assert Placed(k, p, Waiting); }
    forall p | p in k1.zombies ensures Placed(k1, p, Zombie) { assert Placed(k, p, Zombie); }
    forall p | p in k1.procs && p != k.running ensures !Unlinked(k1, p) { assert !Unlinked(k, p); }
  }

  /** The caller's own bookkeeping fields may change freely while it runs. */
  lemma Touch(k: K, c: Proc)
    requires Inv(k) && k.running in k.procs
    requires SameProc(k.procs[k.running], c) && (c.status != Zombie || c.status == k.procs[k.running].status)
    ensures Inv(Put(k, k.running, c))
  {
    hide SchedInv, ReasonInv, TimerInv, DescInv, FamilyInv, PoolInv;
    var k1 := Put(k, k.running, c);
    TouchSched(k, c);
    RunningUnlinked(k);
    NotRunning(k);
    FrameReasons(k, k1);
    FrameDesc(k, k1);
    FrameTimers(k, k1);
    FrameFamily(k, k1);
    FramePools(k, k1);
  }

  lemma YieldMove(k: K)
    requires Inv(k) && k.running in k.procs
    ensures Yield(k).Ok? && Inv(Yield(k).value)
  {
    hide SchedInv, ReasonInv, TimerInv, DescInv, FamilyInv, PoolInv;
    RunningUnlinked(k);
    NotRunning(k);
    var k1 := Yield(k).value;
    YieldSched(k);
    FrameReasons(k, k1);
    FrameDesc(k, k1);
    FrameTimers(k, k1);
    FrameFamily(k, k1);
    FramePools(k, k1);
  }

  lemma RunningUnlinked(k: K)
    requires SchedInv(k) && k.running in k.procs
    ensures Unlinked(k, k.running)
  {
    assert Placed(k, k.running, Ready) || Placed(k, k.running, Waiting) || Placed(k, k.running, Zombie) ==> false;
  }

  lemma YieldSched(k: K)
    requires SchedInv(k) && k.running in k.procs && Yield(k).Ok?
    ensures SchedInv(Yield(k).value)
  {
    var k1 := Yield(k).value;
    forall p | p in k1.ready ensures Placed(k1, p, Ready) { assert p in k.ready ==> Placed(k, p, Ready); }
    forall p | p in k1.waiting ensures Placed(k1, p, Waiting) { assert Placed(k, p, Waiting); }
    forall p | p in k1.zombies ensures Placed(k1, p, Zombie) { assert Placed(k, p, Zombie); }
    forall p | p in k1.procs ensures p == k1.running || !Unlinked(k1, p) {
      assert p == k.running || !Unlinked(k, p);
      assert k.running in k1.ready;
    }
  }

  lemma DispatchMove(k: K)
    requires Inv(k) && k.running == NULL && k.ready != []
    ensures Dispatch(k).Ok? && Inv(Dispatch(k).value)
  {
    hide SchedInv, ReasonInv, TimerInv, DescInv, FamilyInv, PoolInv;
    var k1 := Dispatch(k).value;
    NotRunning(k);
    DispatchSched(k);
    FrameReasons(k, k1);
    FrameDesc(k, k1);
    FrameTimers(k, k1);
    FrameFamily(k, k1);
    FramePools(k, k1);
  }

  lemma DispatchSched(k: K)
    requires SchedInv(k) && k.running == NULL && k.ready != []
    ensures SchedInv(Dispatch(k).value)
  {
    var k1 := Dispatch(k).value;
    assert k.ready[0] in k.ready && Placed(k, k.ready[0], Ready);
    forall p | p in k1.ready ensures Placed(k1, p, Ready) { assert p in k.ready && Placed(k, p, Ready); }
    forall p | p in k1.waiting ensures Placed(k1, p, Waiting) { assert Placed(k, p, Waiting); }
    forall p | p in k1.zombies ensures Placed(k1, p, Zombie) { assert Placed(k, p, Zombie); }
    forall p | p in k1.procs ensures p == k1.running || !Unlinked(k1, p) {
      assert !Unlinked(k, p);
      assert p in k.ready ==> p == k.ready[0] || p in k1.ready;
    }
  }

  lemma ParkSched(k: K)
    requires SchedInv(k) && k.running in k.procs
    ensures Park(k).Ok? && SchedInv(Park(k).value)
  {
    RunningUnlinked(k);
    var k1 := Park(k).value;
    forall p | p in k1.ready ensures Placed(k1, p, Ready) { assert Placed(k, p, Ready); }
    forall p | p in k1.waiting ensures Placed(k1, p, Waiting) { assert p in k.waiting ==> Placed(k, p, Waiting); }
    forall p | p in k1.zombies ensures Placed(k1, p, Zombie) { assert Placed(k, p, Zombie); }
    forall p | p in k1.procs ensures p == k1.running || !Unlinked(k1, p) {
      assert p == k.running || !Unlinked(k, p);
      assert k.running in k1.waiting;
    }
  }

  /** Blocking in wait: sound when no child that would end the wait is a zombie. */
  lemma ParkForChild(k: K)
    requires Inv(k) && k.running in k.procs
    requires k.procs[k.running].call == CALL_WAIT && StillAwaits(k, k.running)
    ensures Park(k).Ok? && Inv(Park(k).value)
  {
    hide SchedInv, ReasonInv, TimerInv, DescInv, FamilyInv, PoolInv;
    ParkSched(k);
    NotRunning(k);
    var k1 := Park(k).value;
    FrameReasons(k, k1);
    FrameDesc(k, k1);
    FrameTimers(k, k1);
    FrameFamily(k, k1);
    FramePools(k, k1);
  }

  // ---- timers

  /** Sorted insertion is stable: behind everything that fires no later, before everything that fires later. */
  lemma {:induction false} AddTimerSplit(ts: seq<Timer>, t: Timer) returns (j: nat)
    requires forall a, b :: 0 <= a < b < |ts| ==> ts[a].awake <= ts[b].awake
    ensures j <= |ts| && AddTimer(ts, t) == ts[..j] + [t] + ts[j..]
    ensures forall a :: 0 <= a < j ==> ts[a].awake <= t.awake
    ensures forall a :: j <= a < |ts| ==> t.awake < ts[a].awake
  {
    if ts == [] || t.awake < ts[0].awake {
      j := 0;
    } else {
      var i := AddTimerSplit(ts[1..], t);
      j := i + 1;
      assert ts[..j] + [t] + ts[j..] == [ts[0]] + (ts[1..][..i] + [t] + ts[1..][i..]);
    }
  }

  /** Timers never run out: each one belongs to a sleeping process, and the caller is not asleep. */
  lemma TimerFree(k: K)
    requires SchedInv(k) && TimerInv(k) && PoolInv(k) && k.running in k.procs
    ensures k.freeTimers > 0
  {
    var pids := seq(|k.timers|, i requires 0 <= i < |k.timers| => k.timers[i].pid);
    forall p | p in pids ensures p in k.procs.Keys - {k.running} {
      var i :| 0 <= i < |pids| && pids[i] == p;
      assert SleepsBy(k, k.timers[i]) && Placed(k, p, Waiting);
    }
    NoDupFits(pids, k.procs.Keys - {k.running});
    assert |k.procs.Keys - {k.running}| == |k.procs| - 1;
  }

  function Asleep(k: K): K
    requires k.running in k.procs
  {
    k.(timers := AddTimer(k.timers, Timer(k.now + k.procs[k.running].arg0, k.running)), freeTimers := k.freeTimers - 1)
  }

  lemma ParkForTimer(k: K)
    requires Inv(k) && k.running in k.procs && k.procs[k.running].call == CALL_SLEEP
    ensures Park(Asleep(k)).Ok? && Inv(Park(Asleep(k)).value)
  {
    hide SchedInv, ReasonInv, TimerInv, DescInv, FamilyInv, PoolInv;
    ParkSched(k);
    NotRunning(k);
    TimerFree(k);
    var k1 := Park(Asleep(k)).value;
    assert k1 == Asleep(k).(running := k1.running, waiting := k1.waiting, procs := k1.procs);
    AsleepSched(k, k1);
    AsleepTimers(k, k1);
    FrameReasons(k, k1);
    FrameDesc(k, k1);
    FrameFamily(k, k1);
    FramePools(k, k1);
  }

  lemma AsleepSched(k: K, k1: K)
    requires SchedInv(k) && k.running in k.procs && Park(Asleep(k)) == Ok(k1)
    ensures SchedInv(k1)
  {
    ParkSched(k);
    var k2 := Park(k).value;
    hide Placed;
    assert forall p, s :: Placed(k2, p, s) <==> Placed(k1, p, s) by { PlacedSame(k2, k1); }
    forall p | p in k1.procs && p != k1.running ensures !Unlinked(k1, p) { assert !Unlinked(k2, p); }
  }

  lemma PlacedSame(k: K, k1: K)
    requires k.procs == k1.procs && k.running == k1.running
    ensures forall p, s :: Placed(k, p, s) <==> Placed(k1, p, s)
  {
  }

  ghost predicate TimerOrder(ts: seq<Timer>) {
    forall i, j :: 0 <= i < j < |ts| ==> ts[i].awake <= ts[j].awake && ts[i].pid != ts[j].pid
  }

  lemma AddTimerKeepsOrder(ts: seq<Timer>, t: Timer)
    requires TimerOrder(ts) && forall x :: x in ts ==> x.pid != t.pid
    ensures TimerOrder(AddTimer(ts, t)) && |AddTimer(ts, t)| == |ts| + 1
    ensures forall x :: x in AddTimer(ts, t) <==> x in ts || x == t
  {
    hide AddTimer;
    var j := AddTimerSplit(ts, t);
    SpliceMembers(ts, j, t);
    SpliceKeepsOrder(ts, j, t);
  }

  lemma SpliceKeepsOrder(ts: seq<Timer>, j: nat, t: Timer)
    requires TimerOrder(ts) && j <= |ts| && forall x :: x in ts ==> x.pid != t.pid
    requires forall a :: 0 <= a < j ==> ts[a].awake <= t.awake
    requires forall a :: j <= a < |ts| ==> t.awake < ts[a].awake
    ensures TimerOrder(ts[..j] + [t] + ts[j..])
  {
    var r := ts[..j] + [t] + ts[j..];
    forall a, b | 0 <= a < b < |r| ensures r[a].awake <= r[b].awake && r[a].pid != r[b].pid {
      SplicedPair(ts, j, t, a, b);
    }
  }

  /** Two entries of the spliced list are two entries of the old one, or one of it and the new one. */
  lemma SplicedPair(ts: seq<Timer>, j: nat, t: Timer, a: nat, b: nat)
    requires TimerOrder(ts) && j <= |ts| && a < b <= |ts|
    requires forall x :: x in ts ==> x.pid != t.pid
    requires forall i :: 0 <= i < j ==> ts[i].awake <= t.awake
    requires forall i :: j <= i < |ts| ==> t.awake < ts[i].awake
    ensures var r := ts[..j] + [t] + ts[j..]; r[a].awake <= r[b].awake && r[a].pid != r[b].pid
  {
    var r := ts[..j] + [t] + ts[j..];
    if a < j {
      assert r[a] == ts[a] && ts[a] in ts;
    } else if a > j {
      assert r[a] == ts[a - 1];
    }
    if b < j {
      assert r[b] == ts[b];
    } else if b > j {
      assert r[b] == ts[b - 1] && ts[b - 1] in ts;
    }
  }

  lemma SpliceMembers<T>(s: seq<T>, at: nat, x: T)
    requires at <= |s|
    ensures forall y :: y in s[..at] + [x] + s[at..] <==> y in s || y == x
  {
    var r := s[..at] + [x] + s[at..];
    forall y | y in s ensures y in r {
      var i :| 0 <= i < |s| && s[i] == y;
      assert r[if i < at then i else i + 1] == y;
    }
    assert r[at] == x;
  }

  lemma HasTimerIn(ts: seq<Timer>, p: Pid)
    ensures HasTimer(ts, p) <==> exists x :: x in ts && x.pid == p
  {
    if HasTimer(ts, p) {
      var i :| 0 <= i < |ts| && ts[i].pid == p;
      assert ts[i] in ts;
    }
  }

  lemma AsleepTimers(k: K, k1: K)
    requires TimerInv(k) && SchedInv(k) && k.running in k.procs && k.procs[k.running].call == CALL_SLEEP
    requires Park(Asleep(k)) == Ok(k1)
    ensures TimerInv(k1)
    ensures HasTimer(k1.timers, k.running) && forall p :: HasTimer(k.timers, p) ==> HasTimer(k1.timers, p)
  {
    var me := k.running;
    var t := Timer(k.now + k.procs[me].arg0, me);
    forall x | x in k.timers ensures x.pid != me && SleepsBy(k1, x) {
      assert SleepsBy(k, x) && Placed(k, x.pid, Waiting);
    }
    AddTimerKeepsOrder(k.timers, t);
    forall i | 0 <= i < |k1.timers| ensures SleepsBy(k1, k1.timers[i]) { assert k1.timers[i] in k1.timers; }
    forall p ensures HasTimer(k.timers, p) ==> HasTimer(k1.timers, p) {
      HasTimerIn(k.timers, p);
      HasTimerIn(k1.timers, p);
    }
    HasTimerIn(k1.timers, me);
  }

  /** The owner of the first timer leaves the waiting list for its place in the ready queue. */
  lemma WakeMove(k: K, at: nat)
    requires Inv(k) && Elapsed(k) && at <= |k.ready|
    ensures WakeFirst(k, at).Ok? && Inv(WakeFirst(k, at).value)
  {
    hide SchedInv, ReasonInv, TimerInv, DescInv, FamilyInv, PoolInv;
    FirstSleeper(k);
    NotRunning(k);
    WakeSched(k, at);
    var k1 := WakeFirst(k, at).value;
    WakeTimers(k, at);
    FrameReasons(k, k1);
    FrameDesc(k, k1);
    FrameFamily(k, k1);
    FramePools(k, k1);
  }

  lemma FirstSleeper(k: K)
    requires TimerInv(k) && SchedInv(k) && k.timers != []
    ensures SleepsBy(k, k.timers[0]) && k.procs[k.timers[0].pid].status == Waiting
    ensures !k.procs[k.timers[0].pid].hasTimer
  {
    assert SleepsBy(k, k.timers[0]);
    assert Placed(k, k.timers[0].pid, Waiting);
  }

  lemma WakeSched(k: K, at: nat)
    requires SchedInv(k) && Elapsed(k) && at <= |k.ready| && k.timers[0].pid in k.waiting
    ensures WakeFirst(k, at).Ok? && SchedInv(WakeFirst(k, at).value)
    ensures forall p :: p in WakeFirst(k, at).value.waiting <==> p in k.waiting && p != k.timers[0].pid
  {
    var w := k.timers[0].pid;
    assert Placed(k, w, Waiting);
    WithoutMembers(k.waiting, w);
    var k1 := WakeFirst(k, at).value;
    assert !Placed(k, w, Ready);
    InsertAt(k.ready, at, w);
    forall p | p in k1.ready ensures Placed(k1, p, Ready) { assert p in k.ready ==> Placed(k, p, Ready); }
    forall p | p in k1.waiting ensures Placed(k1, p, Waiting) { assert Placed(k, p, Waiting); }
    forall p | p in k1.zombies ensures Placed(k1, p, Zombie) { assert Placed(k, p, Zombie); }
    forall p | p in k1.procs ensures p == k1.running || !Unlinked(k1, p) {
      assert p == k.running || !Unlinked(k, p);
    }
  }

  lemma InsertAt<T>(s: seq<T>, at: nat, x: T)
    requires NoDup(s) && at <= |s| && x !in s
    ensures NoDup(s[..at] + [x] + s[at..])
    ensures forall y :: y in s[..at] + [x] + s[at..] <==> y in s || y == x
  {
    SpliceMembers(s, at, x);
  }

  lemma WakeTimers(k: K, at: nat)
    requires TimerInv(k) && SchedInv(k) && Elapsed(k) && at <= |k.ready| && WakeFirst(k, at).Ok?
    requires forall p :: p in WakeFirst(k, at).value.waiting <==> p in k.waiting && p != k.timers[0].pid
    ensures TimerInv(WakeFirst(k, at).value)
    ensures forall p :: p != k.timers[0].pid && HasTimer(k.timers, p) ==> HasTimer(k.timers[1..], p)
  {
    var k1 := WakeFirst(k, at).value;
    forall i | 0 <= i < |k1.timers| ensures SleepsBy(k1, k1.timers[i]) {
      assert k1.timers[i] == k.timers[i + 1] && SleepsBy(k, k.timers[i + 1]);
      assert k.timers[0].pid != k.timers[i + 1].pid;
    }
    forall p | p != k.timers[0].pid && HasTimer(k.timers, p) ensures HasTimer(k.timers[1..], p) {
      var i :| 0 <= i < |k.timers| && k.timers[i].pid == p;
      assert k.timers[1..][i - 1] == k.timers[i];
    }
  }
}
