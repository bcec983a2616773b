/** Who is woken, by what, and when. */
module KernelWaking {
  import opened KernelState
  import opened KernelInvariant
  import opened KernelMoves
  import opened KernelFamilyMoves
  import opened KernelSteps
  import opened KernelEffects
  import opened KernelRuns
  import opened KernelPlaces
  import opened KernelFrames

  /** The step is what the waiting process waits for. */
  ghost predicate Answers(k: K, e: Event, p: Pid)
    requires p in k.procs && k.running in k.procs
  {
    if k.procs[p].call == CALL_SLEEP then
      Scheduling(e) && exists t :: t in k.timers && t.pid == p && t.awake <= ClockAt(k, e)
    else if k.procs[p].call == CALL_SEMWAIT then
      e.SemPostCall? && PostHandsOff(k, e.fd) && PostHead(k, e.fd) == p
    else
      e.ExitCall? && k.procs[k.running].parent == p && (k.procs[p].arg0 == 0 || k.procs[p].arg0 == k.running)
  }

  /** A step takes a process off the waiting list if and only if it is the event that process waits for: its own
      timer, a hand-over to it on its own semaphore, or the exit of a child it awaits. */
  lemma WokenExactly(k: K, e: Event, k1: K, p: Pid)
    requires Inv(k) && Follows(k, e, k1) && p in k.waiting
    ensures p in k.procs && (p !in k1.waiting <==> Answers(k, e, p))
    ensures p !in k1.waiting ==> k1.running == p || p in k1.ready
  {
    hide Inv, Step, SchedInv, ReasonInv, TimerInv, DescInv, FamilyInv, PoolInv;
    StepInv(k, e, k1);
    InvParts(k);
    ReasonKind(k, p);
    if Scheduling(e) {
      FiredOwners(k, ClockAt(k, e));
      RotatedFront(k, EffectOf(k, e), k1, p);
    }
    if e.SemPostCall? && PostHandsOff(k, e.fd) { PostHeadCall(k, e.fd); }
    if e.ExitCall? { ParentFacts(k); }
  }

  lemma ReasonKind(k: K, p: Pid)
    requires ReasonInv(k) && SchedInv(k) && p in k.waiting
    ensures p in k.procs && k.procs[p].status == Waiting
    ensures k.procs[p].call == CALL_SLEEP || k.procs[p].call == CALL_WAIT || k.procs[p].call == CALL_SEMWAIT
  {
    assert ReasonOk(k, p) && Placed(k, p, Waiting);
  }

  /** The processes the scheduler wakes are the owners of the timers that have fired, and those all sleep. */
  lemma FiredOwners(k: K, now: int)
    requires TimerInv(k)
    ensures forall p :: p in ElapsedPids(k.timers, now) <==> exists t :: t in k.timers && t.pid == p && t.awake <= now
    ensures forall p :: p in ElapsedPids(k.timers, now) ==>
              p in k.waiting && p in k.procs && k.procs[p].call == CALL_SLEEP
  {
    var w := ElapsedPids(k.timers, now);
    ElapsedExactly(k.timers, now);
    forall p | p in w ensures exists t :: t in k.timers && t.pid == p && t.awake <= now {
      var i :| 0 <= i < |w| && w[i] == p;
      assert k.timers[i] in k.timers;
    }
    forall t | t in k.timers && t.awake <= now ensures t.pid in w {
      var i :| 0 <= i < |k.timers| && k.timers[i] == t;
      assert w[i] == t.pid;
    }
    forall p | p in w ensures p in k.waiting && p in k.procs && k.procs[p].call == CALL_SLEEP {
      var i :| 0 <= i < |w| && w[i] == p;
      assert SleepsBy(k, k.timers[i]);
    }
  }

  lemma RotatedFront(k: K, f: Effect, k1: K, p: Pid)
    requires f.Rotated? && Shows(k, f, k1)
    ensures p in f.woken ==> k1.running == p || p in k1.ready
  {
    if p in f.woken {
      assert p in f.woken + k.ready;
      RotatedKeeps(f.woken + k.ready, k.running, p);
    }
  }

  lemma PostHeadCall(k: K, fd: int)
    requires DescInv(k) && PostHandsOff(k, fd)
    ensures PostHead(k, fd) in k.procs && k.procs[PostHead(k, fd)].call == CALL_SEMWAIT
  {
    var s := k.descs[Lookup(k, fd).value.value].sem;
    assert SemOk(k, s);
    var q := k.sems[s].waitingDescs[0];
    assert q in k.sems[s].waitingDescs && WaitsThrough(k, q);
  }

  // ---- sleeping

  /** The step is the scheduler running with this timer fired. */
  predicate Fires(k: K, e: Event, t: Timer) { Scheduling(e) && t.awake <= ClockAt(k, e) }

  lemma TimerStep(k: K, e: Event, k1: K, t: Timer)
    requires Inv(k) && Follows(k, e, k1) && t in k.timers && !Fires(k, e, t)
    ensures t in k1.timers
  {
    hide Inv, SchedInv, ReasonInv, TimerInv, DescInv, FamilyInv, PoolInv;
    hide Leave, SemOpen, SemClose, SemWait, SemPost, Wait;
    InvParts(k);
    match e
    case TickEvent => ClockMove(k); LateTimerStays(k.(now := k.now + 1), t);
    case PreemptCall =>
      EnterKeeps(k, CALL_PREEMPT, []);
      LateTimerStays(Enter(k, CALL_PREEMPT, []).value, t);
    case SleepCall(n) =>
      var k0 := Enter(k, CALL_SLEEP, [n]).value;
      EnterKeeps(k, CALL_SLEEP, [n]);
      InvParts(k0);
      NewTimerJoins(k0);
    case ExitCall(v) => ExitTimers(k, v);
    case SemOpenCall(id, c) => OpenTimers(Enter(k, CALL_SEMOPEN, [id, c]).value);
    case SemCloseCall(fd) => CloseTimers(Enter(k, CALL_SEMCLOSE, [fd]).value);
    case SemWaitCall(fd) => SemWaitTimers(Enter(k, CALL_SEMWAIT, [fd]).value);
    case SemPostCall(fd) => SemPostTimers(Enter(k, CALL_SEMPOST, [fd]).value);
    case WaitCall(p) => WaitTimers(Enter(k, CALL_WAIT, [p, 0]).value);
    case SpawnCall =>
  }

  lemma LateTimerStays(k: K, t: Timer)
    requires Inv(k) && t in k.timers && t.awake > k.now && Schedule(k).Ok?
    ensures t in Schedule(k).value.timers
  {
    hide Inv, SchedInv, ReasonInv, TimerInv, DescInv, FamilyInv, PoolInv, WakeElapsed, ElapsedPids;
    InvParts(k);
    WakeEffect(k, 0);
    Sorted(k);
    LateInRest(k.timers, k.now, t);
  }

  lemma Sorted(k: K)
    requires TimerInv(k)
    ensures TimerOrder(k.timers)
  {
  }

  lemma LateInRest(ts: seq<Timer>, now: int, t: Timer)
    requires TimerOrder(ts) && t in ts && t.awake > now
    ensures |ElapsedPids(ts, now)| <= |ts| && t in ts[|ElapsedPids(ts, now)|..]
  {
    ElapsedExactly(ts, now);
    var i :| 0 <= i < |ts| && ts[i] == t;
    var n := |ElapsedPids(ts, now)|;
    assert ts[n..][i - n] == t;
  }

  lemma NewTimerJoins(k: K)
    requires SchedInv(k) && TimerInv(k) && PoolInv(k) && k.running in k.procs && Sleep(k).Ok?
    ensures Sleep(k).value.timers == AddTimer(k.timers, Timer(k.now + k.procs[k.running].arg0, k.running))
    ensures forall t :: t in k.timers ==> t in Sleep(k).value.timers
    ensures Timer(k.now + k.procs[k.running].arg0, k.running) in Sleep(k).value.timers
  {
    TimerFree(k);
    NoTimerYet(k);
    forall x | x in k.timers ensures x.pid != k.running { assert SleepsBy(k, x) && Placed(k, x.pid, Waiting); }
    AddTimerKeepsOrder(k.timers, Timer(k.now + k.procs[k.running].arg0, k.running));
  }

  lemma ExitTimers(k: K, v: int)
    requires Inv(k) && CleanExit(k) && Step(k, ExitCall(v)).Ok?
    ensures Step(k, ExitCall(v)).value.timers == k.timers
  {
    hide SchedInv, ReasonInv, TimerInv, DescInv, FamilyInv, PoolInv;
    NoTimerOfMine(k);
    DropTimersNone(k.timers, k.running);
  }

  lemma OpenTimers(k: K)
    requires SemOpen(k).Ok?
    ensures SemOpen(k).value.timers == k.timers
  {
  }

  lemma CloseTimers(k: K)
    requires SemClose(k).Ok?
    ensures SemClose(k).value.timers == k.timers
  {
  }

  lemma SemWaitTimers(k: K)
    requires SemWait(k).Ok?
    ensures SemWait(k).value.timers == k.timers
  {
  }

  lemma SemPostTimers(k: K)
    requires SemPost(k).Ok?
    ensures SemPost(k).value.timers == k.timers
  {
  }

  lemma WaitTimers(k: K)
    requires Wait(k).Ok?
    ensures Wait(k).value.timers == k.timers
  {
  }

  /** A call to sleep puts the caller on the waiting list with a timer for `now + cycles`. */
  lemma SleepStarts(k: K, n: int, k1: K)
    requires Inv(k) && Follows(k, SleepCall(n), k1)
    ensures Timer(k.now + n, k.running) in k1.timers && k.running in k1.waiting
  {
    hide Inv, SchedInv, ReasonInv, TimerInv, DescInv, FamilyInv, PoolInv;
    EnterKeeps(k, CALL_SLEEP, [n]);
    var k0 := Enter(k, CALL_SLEEP, [n]).value;
    InvParts(k0);
    NewTimerJoins(k0);
    TimerFree(k0);
    NoTimerYet(k0);
  }

  /** Nobody wakes early: until the scheduler first runs at or after the awakening time, whatever else happens, the
      timer is there and its owner waits. And nobody oversleeps: that run of the scheduler wakes the owner. */
  lemma {:induction false} SleepsUntilFired(ks: seq<K>, es: seq<Event>, t: Timer)
    requires Run(ks, es) && Inv(ks[0]) && t in ks[0].timers
    requires forall i :: 0 <= i < |es| ==> !Fires(ks[i], es[i], t)
    ensures var k := ks[|es|];
            && t in k.timers && t.pid in k.waiting && k.running != t.pid
            && forall e, k1 :: Follows(k, e, k1) && Fires(k, e, t) ==>
                 t.pid !in k1.waiting && (k1.running == t.pid || t.pid in k1.ready)
  {
    hide Inv, Step, SchedInv, TimerInv, Fires, Follows;
    RunInv(ks, es);
    if es != [] {
      RunPrefix(ks, es);
      var n := |es| - 1;
      var ks0, es0 := ks[..|es|], es[..n];
      forall i | 0 <= i < |es0| ensures !Fires(ks0[i], es0[i], t) { assert !Fires(ks[i], es[i], t); }
      SleepsUntilFired(ks0, es0, t);
      assert ks0[n] == ks[n];
      TimerStep(ks[n], es[n], ks[n + 1], t);
    }
    var k := ks[|es|];
    InvParts(k);
    OwnerSleeps(k, t);
    forall e, k1 | Follows(k, e, k1) && Fires(k, e, t)
      ensures t.pid !in k1.waiting && (k1.running == t.pid || t.pid in k1.ready)
    {
      FiredWakes(k, e, k1, t);
    }
  }

  lemma OwnerSleeps(k: K, t: Timer)
    requires SchedInv(k) && TimerInv(k) && t in k.timers
    ensures t.pid in k.waiting && t.pid != k.running && t.pid in k.procs && k.procs[t.pid].call == CALL_SLEEP
  {
    assert SleepsBy(k, t) && Placed(k, t.pid, Waiting);
  }

  lemma FiredWakes(k: K, e: Event, k1: K, t: Timer)
    requires Inv(k) && Follows(k, e, k1) && Fires(k, e, t) && t in k.timers
    ensures t.pid !in k1.waiting && (k1.running == t.pid || t.pid in k1.ready)
  {
    hide Inv, Step, SchedInv, TimerInv;
    InvParts(k);
    OwnerSleeps(k, t);
    WokenExactly(k, e, k1, t.pid);
  }

  // ---- how long a sleep lasts

  function Ticks(es: seq<Event>): nat {
    if es == [] then 0 else Ticks(es[..|es| - 1]) + One(es[|es| - 1] == TickEvent)
  }

  /** The clock counts the ticks of every run, from 0 at start-up. */
  lemma {:induction false} ClockCounts(ks: seq<K>, es: seq<Event>)
    requires Run(ks, es) && Inv(ks[0])
    ensures ks[|es|].now == ks[0].now + Ticks(es)
    ensures ks[0] == Boot() ==> ks[|es|].now == Ticks(es)
  {
    hide Inv, Step, Follows;
    RunInv(ks, es);
    if es != [] {
      RunPrefix(ks, es);
      ClockCounts(ks[..|es|], es[..|es| - 1]);
      assert ks[..|es|][|es| - 1] == ks[|es| - 1];
      ClockStep(ks[|es| - 1], es[|es| - 1], ks[|es|]);
    }
  }

  lemma RunTake(ks: seq<K>, es: seq<Event>, j: nat)
    requires Run(ks, es) && j <= |es|
    ensures Run(ks[..j + 1], es[..j])
  {
    hide Follows;
  }

  lemma {:induction false} TicksTake(es: seq<Event>, j: nat)
    requires j < |es|
    ensures Ticks(es[..j]) + One(es[j] == TickEvent) <= Ticks(es)
  {
    if j < |es| - 1 {
      TicksTake(es[..|es| - 1], j);
      assert es[..|es| - 1][..j] == es[..j];
    }
  }

  lemma {:induction false} LastTick(es: seq<Event>) returns (m: nat)
    requires Ticks(es) > 0
    ensures m < |es| && es[m] == TickEvent && Ticks(es[..m]) + 1 == Ticks(es)
  {
    var n := |es| - 1;
    if es[n] == TickEvent {
      m := n;
    } else {
      m := LastTick(es[..n]);
      assert es[..n][..m] == es[..m];
    }
  }

  /** What the scheduler's clock shows at step `j`. */
  lemma ClockInside(ks: seq<K>, es: seq<Event>, j: nat)
    requires Run(ks, es) && Inv(ks[0]) && j < |es|
    ensures ClockAt(ks[j], es[j]) == ks[0].now + Ticks(es[..j]) + One(es[j] == TickEvent)
  {
    hide Inv, Follows;
    RunTake(ks, es, j);
    ClockCounts(ks[..j + 1], es[..j]);
  }

  /** Once the ticks have brought the clock to a sleeper's time, the sleeper has been woken: at the first step at which
      the scheduler saw its timer fired, and it had waited until then. */
  lemma WokenInTime(ks: seq<K>, es: seq<Event>, t: Timer) returns (i: nat)
    requires Run(ks, es) && Inv(ks[0]) && t in ks[0].timers
    requires Ticks(es) > 0 && ks[0].now + Ticks(es) >= t.awake
    ensures i < |es| && Fires(ks[i], es[i], t) && forall j :: 0 <= j < i ==> !Fires(ks[j], es[j], t)
    ensures t.pid in ks[i].waiting && t.pid !in ks[i + 1].waiting
    ensures ks[i + 1].running == t.pid || t.pid in ks[i + 1].ready
  {
    hide Inv, Follows, Step;
    var m := LastTick(es);
    ClockInside(ks, es, m);
    assert Fires(ks[m], es[m], t);
    i := 0;
    while !Fires(ks[i], es[i], t)
      invariant i <= m
      invariant forall j :: 0 <= j < i ==> !Fires(ks[j], es[j], t)
      decreases m - i
    {
      i := i + 1;
    }
    RunTake(ks, es, i);
    SleepsUntilFired(ks[..i + 1], es[..i], t);
    assert Follows(ks[i], es[i], ks[i + 1]);
  }

  /** A sleep of `n >= 1` cycles lasts until the n-th tick, exactly: with fewer ticks, whatever else happens, the caller
      still waits, and the n-th takes it off the waiting list and makes it run or ready. */
  lemma SleepLasts(k: K, n: nat, ks: seq<K>, es: seq<Event>)
    requires Inv(k) && Run(ks, es) && Follows(k, SleepCall(n), ks[0]) && n >= 1
    ensures Ticks(es) < n ==> k.running in ks[|es|].waiting
    ensures Ticks(es) == n && es[|es| - 1] == TickEvent ==>
              k.running !in ks[|es|].waiting && (ks[|es|].running == k.running || k.running in ks[|es|].ready)
  {
    hide Inv, Follows, Step;
    var t := Timer(k.now + n, k.running);
    SleepStarts(k, n, ks[0]);
    ClockStep(k, SleepCall(n), ks[0]);
    StepInv(k, SleepCall(n), ks[0]);
    forall j | 0 <= j < |es| && Fires(ks[j], es[j], t)
      ensures Ticks(es[..j]) + One(es[j] == TickEvent) >= n && Ticks(es) >= n
    {
      ClockInside(ks, es, j);
      TicksTake(es, j);
    }
    if Ticks(es) < n {
      SleepsUntilFired(ks, es, t);
    } else if Ticks(es) == n && es[|es| - 1] == TickEvent {
      var m := |es| - 1;
      ClockInside(ks, es, m);
      forall j | 0 <= j < m ensures !Fires(ks[j], es[j], t) {
        TicksTake(es[..m], j);
        assert es[..m][..j] == es[..j];
      }
      RunTake(ks, es, m);
      SleepsUntilFired(ks[..m + 1], es[..m], t);
      assert Follows(ks[m], es[m], ks[m + 1]);
    }
  }
}
