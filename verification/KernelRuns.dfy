/** What holds along every run of the kernel. */
module KernelRuns {
  import opened Outcomes
  import opened KernelState
  import opened KernelInvariant
  import opened KernelMoves
  import opened KernelSteps
  import opened KernelEffects
  import opened KernelSemaphores
  import H = HandoffSemaphore

  /** One step that does not fault, by a process that exits only when it may. */
  ghost predicate Follows(k: K, e: Event, k1: K) {
    k.running in k.procs && (e.ExitCall? ==> CleanExit(k)) && Step(k, e) == Ok(k1)
  }

  ghost predicate Run(ks: seq<K>, es: seq<Event>) {
    |ks| == |es| + 1 && forall i :: 0 <= i < |es| ==> Follows(ks[i], es[i], ks[i + 1])
  }

  lemma {:induction false} RunPrefix(ks: seq<K>, es: seq<Event>)
    requires Run(ks, es) && es != []
    ensures Run(ks[..|es|], es[..|es| - 1]) && Follows(ks[|es| - 1], es[|es| - 1], ks[|es|])
  {
    hide Follows;
  }

  /** The invariant holds in every state of every run that starts in it; `Boot` does. */
  lemma {:induction false} RunInv(ks: seq<K>, es: seq<Event>)
    requires Run(ks, es) && Inv(ks[0])
    ensures forall i :: 0 <= i < |ks| ==> Inv(ks[i])
  {
    hide Inv, Step;
    if es != [] {
      RunPrefix(ks, es);
      RunInv(ks[..|es|], es[..|es| - 1]);
      var k, e := ks[|es| - 1], es[|es| - 1];
      assert k == ks[..|es|][|es| - 1];
      StepKeeps(k, e);
      forall i | 0 <= i < |ks| ensures Inv(ks[i]) {
        if i < |es| { assert ks[i] == ks[..|es|][i]; }
      }
    }
  }

  lemma StepInv(k: K, e: Event, k1: K)
    requires Inv(k) && Follows(k, e, k1)
    ensures Inv(k1) && Shows(k, EffectOf(k, e), k1)
  {
    hide Inv, Step, Shows, EffectOf;
    StepKeeps(k, e);
    StepEffect(k, e);
  }

  // ---- one process that never gives up the processor for good

  predicate Yielding(e: Event) { e.ExitCall? || e.WaitCall? || e.SleepCall? || e.SemWaitCall? }

  ghost predicate Alive(k: K, idle: Pid) {
    idle in k.procs && (k.running == idle || idle in k.ready)
  }

  /** A process that makes no blocking or exit call stays running or ready whatever the others do. */
  lemma StaysAlive(k: K, e: Event, k1: K, idle: Pid)
    requires Inv(k) && Follows(k, e, k1) && Alive(k, idle) && (k.running == idle ==> !Yielding(e))
    ensures Alive(k1, idle)
  {
    hide Inv, Step, EffectOf, SchedInv, Shows;
    StepInv(k, e, k1);
    InvParts(k);
    InvParts(k1);
    NotIdle(k, idle);
    NonYieldingEffect(k, e);
    AliveShown(k, EffectOf(k, e), k1, idle);
    PidsNat(k);
    RunningOrReadyExists(k1, idle);
  }

  lemma PidsNat(k: K)
    requires SchedInv(k)
    ensures forall p :: p in k.procs ==> p >= 0
  {
  }

  lemma AliveShown(k: K, f: Effect, k1: K, idle: Pid)
    requires Shows(k, f, k1) && (k.running == idle || idle in k.ready)
    requires k.running != idle ==> k.ready != [] && (idle == k.ready[0] || idle in k.ready[1..])
    requires k.running == idle ==> f != Popped && !f.Replaced? && f != Halted
    requires f == Halted ==> k.ready == []
    ensures k1.running == idle || idle in k1.ready
  {
    if f.Rotated? && f.woken + k.ready != [] {
      RotatedKeeps(f.woken + k.ready, k.running, idle);
    }
  }

  lemma RotatedKeeps(all: seq<Pid>, r: Pid, p: Pid)
    requires all != [] && (p in all || p == r)
    ensures p == all[0] || p in all[1..] + [r]
  {
    if p in all {
      var i :| 0 <= i < |all| && all[i] == p;
      if i > 0 { assert all[1..][i - 1] == p; }
    }
  }

  lemma NotIdle(k: K, idle: Pid)
    requires SchedInv(k) && Alive(k, idle)
    ensures k.running != idle ==> k.ready != [] && (idle == k.ready[0] || idle in k.ready[1..])
    ensures idle !in k.waiting
  {
    assert !Placed(k, idle, Waiting) by {
      if k.running != idle { assert Placed(k, idle, Ready); }
    }
  }

  lemma NonYieldingEffect(k: K, e: Event)
    requires k.running in k.procs
    ensures !Yielding(e) ==> EffectOf(k, e) != Popped && !EffectOf(k, e).Replaced? && EffectOf(k, e) != Halted
    ensures EffectOf(k, e) == Halted ==> k.ready == []
  {
  }

  lemma RunningOrReadyExists(k: K, p: Pid)
    requires SchedInv(k) && (k.running == p || p in k.ready) && p >= 0
    ensures p in k.procs
  {
    assert p in k.ready ==> Placed(k, p, Ready);
  }

  /** With such a process, no call ever finds the ready queue empty when it needs it: every step of every process
      succeeds, except a spawn from an exhausted pool, and there is always a process running. */
  lemma IdleMakesSafe(k: K, e: Event, idle: Pid)
    requires Inv(k) && k.running in k.procs && Alive(k, idle)
    requires k.running == idle ==> !Yielding(e)
    requires e.ExitCall? ==> CleanExit(k)
    requires e.SpawnCall? ==> k.freePcbs != [] && k.freePcbPtrs > 0
    ensures k.running != idle ==> k.ready != []
    ensures Step(k, e).Ok? && Alive(Step(k, e).value, idle) && Step(k, e).value.running in Step(k, e).value.procs
  {
    hide Inv, Step, SchedInv;
    InvParts(k);
    NotIdle(k, idle);
    StepKeeps(k, e);
    StaysAlive(k, e, Step(k, e).value, idle);
  }

  /** The requirements a caller can check: exit clean, and spawn only from pools that are not exhausted. */
  ghost predicate Permitted(k: K, e: Event, idle: Pid) {
    && (k.running == idle ==> !Yielding(e))
    && (e.ExitCall? ==> CleanExit(k))
    && (e.SpawnCall? ==> k.freePcbs != [] && k.freePcbPtrs > 0)
  }

  /** So over every run in which one process never gives up the processor for good: some process is always running,
      the ready queue is never empty while another one runs, and no permitted step of anybody ever faults. */
  lemma {:induction false} IdleRun(ks: seq<K>, es: seq<Event>, idle: Pid)
    requires Run(ks, es) && Inv(ks[0]) && Alive(ks[0], idle) && ks[0].running in ks[0].procs
    requires forall i :: 0 <= i < |es| ==> Permitted(ks[i], es[i], idle)
    ensures var k := ks[|es|];
            && Alive(k, idle) && k.running in k.procs && (k.running != idle ==> k.ready != [])
            && forall e :: Permitted(k, e, idle) ==> Step(k, e).Ok?
  {
    hide Inv, Step, Follows, SchedInv;
    RunInv(ks, es);
    if es != [] {
      RunPrefix(ks, es);
      var n := |es| - 1;
      forall i | 0 <= i < n ensures Permitted(ks[..|es|][i], es[..n][i], idle) { assert Permitted(ks[i], es[i], idle); }
      IdleRun(ks[..|es|], es[..n], idle);
      assert ks[..|es|][n] == ks[n] && Permitted(ks[n], es[n], idle);
      FollowsStep(ks[n], es[n], ks[n + 1]);
      IdleMakesSafe(ks[n], es[n], idle);
    }
    var k := ks[|es|];
    InvParts(k);
    NotIdle(k, idle);
    forall e | Permitted(k, e, idle) ensures Step(k, e).Ok? { IdleMakesSafe(k, e, idle); }
  }

  lemma FollowsStep(k: K, e: Event, k1: K)
    requires Follows(k, e, k1)
    ensures k.running in k.procs && (e.ExitCall? ==> CleanExit(k)) && Step(k, e) == Ok(k1)
  {
  }

  // ---- semaphores

  /** The operations the run performs on `s`, in order. */
  ghost function OpsAlong(ks: seq<K>, es: seq<Event>, s: Ref): seq<H.Op>
    requires |ks| == |es| + 1
  {
    if es == [] then []
    else OpsAlong(ks[..|es|], es[..|es| - 1], s) + OpsOn(ks[|es| - 1], es[|es| - 1], s)
  }

  lemma {:induction false} ExecAppend(s: H.Sem, a: seq<H.Op>, b: seq<H.Op>)
    ensures H.Exec(s, a + b) == H.Exec(H.Exec(s, a), b)
  {
    if b == [] {
      assert a + b == a;
    } else {
      assert (a + b)[..|a + b| - 1] == a + b[..|b| - 1];
      ExecAppend(s, a, b[..|b| - 1]);
    }
  }

  /** Over every run in which it stays open, a kernel semaphore is the hand-off semaphore executing the run's waits
      and posts on it: nothing else in the kernel changes its count or who waits for it. */
  lemma {:induction false} SemAlong(ks: seq<K>, es: seq<Event>, s: Ref)
    requires Run(ks, es) && Inv(ks[0]) && forall i :: 0 <= i < |ks| ==> s in ks[i].sems
    ensures View(ks[|es|], s) == H.Exec(View(ks[0], s), OpsAlong(ks, es, s))
  {
    hide Inv, Step;
    if es != [] {
      var n := |es| - 1;
      RunPrefix(ks, es);
      var ks0, es0 := ks[..|es|], es[..n];
      forall i | 0 <= i < |ks0| ensures s in ks0[i].sems { assert ks0[i] == ks[i]; }
      SemAlong(ks0, es0, s);
      RunInv(ks, es);
      SemStep(ks[n], es[n], s);
      ExecAppend(View(ks[0], s), OpsAlong(ks0, es0, s), OpsOn(ks[n], es[n], s));
    }
  }

  /** So over every run a kernel semaphore refines the textbook one: its permits are what the count says, and the
      processes on its waiting list are the pending waits, in order. */
  lemma SemRefinesTextbook(ks: seq<K>, es: seq<Event>, s: Ref)
    requires Run(ks, es) && Inv(ks[0]) && forall i :: 0 <= i < |ks| ==> s in ks[i].sems
    ensures var v, v1 := View(ks[0], s), View(ks[|es|], s);
            H.TextbookExec(H.Textbook(H.Max0(v.count), v.waiters), OpsAlong(ks, es, s)) ==
            H.Textbook(H.Max0(v1.count), v1.waiters)
  {
    hide Inv, Step, View, OpsAlong;
    SemAlong(ks, es, s);
    InvParts(ks[0]);
    ViewBalanced(ks[0], s);
    H.RefinesTextbook(View(ks[0], s), OpsAlong(ks, es, s));
  }

  /** From the open that creates it, with count `n`: `count = n + posts - waits`, the permits go to the first
      callers, and exactly the other callers are blocked, in call order. */
  lemma {:induction false} SemHistory(ks: seq<K>, es: seq<Event>, s: Ref, n: nat)
    requires Run(ks, es) && Inv(ks[0]) && forall i :: 0 <= i < |ks| ==> s in ks[i].sems
    requires View(ks[0], s) == H.Sem(n, [])
    ensures var ops := OpsAlong(ks, es, s);
            var waits := H.Requests(ops);
            && ks[|es|].sems[s].count == n + H.Posts(ops) - |waits|
            && |ks[|es|].sems[s].waitingDescs| == H.Max0(-ks[|es|].sems[s].count)
            && View(ks[|es|], s).waiters == waits[H.Min(|waits|, n + H.Posts(ops))..]
  {
    hide Inv, Step, OpsAlong;
    hide H.Exec, H.Requests, H.Posts, H.Grants;
    SemAlong(ks, es, s);
    H.FirstComeFirstServed(n, OpsAlong(ks, es, s));
    RunInv(ks, es);
    InvParts(ks[|es|]);
    ViewBalanced(ks[|es|], s);
  }

  /** A semaphore somebody waits for stays open. */
  lemma {:induction false} WaitedStaysOpen(ks: seq<K>, es: seq<Event>, s: Ref, i: nat)
    requires Run(ks, es) && Inv(ks[0]) && s in ks[0].sems && i < |View(ks[0], s).waiters|
    requires H.Posts(OpsAlong(ks, es, s)) <= i
    ensures s in ks[|es|].sems && View(ks[|es|], s) == H.Exec(View(ks[0], s), OpsAlong(ks, es, s))
  {
    hide Inv, Step;
    if es != [] {
      var n := |es| - 1;
      RunPrefix(ks, es);
      var ks0, es0 := ks[..|es|], es[..n];
      PostsAppend(OpsAlong(ks0, es0, s), OpsOn(ks[n], es[n], s));
      WaitedStaysOpen(ks0, es0, s, i);
      WaitedPosition(ks[0], s, OpsAlong(ks0, es0, s), i);
      RunInv(ks, es);
      SemStep(ks[n], es[n], s);
      ExecAppend(View(ks[0], s), OpsAlong(ks0, es0, s), OpsOn(ks[n], es[n], s));
    }
  }

  lemma {:induction false} WaitedPosition(k: K, s: Ref, ops: seq<H.Op>, i: nat)
    requires Inv(k) && s in k.sems && i < |View(k, s).waiters| && H.Posts(ops) <= i
    ensures var w := H.Exec(View(k, s), ops).waiters;
            i - H.Posts(ops) < |w| && w[i - H.Posts(ops)] == View(k, s).waiters[i]
  {
    hide Inv;
    InvParts(k);
    ViewBalanced(k, s);
    H.PositionAfter(View(k, s), ops, i);
  }

  lemma {:induction false} PostsAppend(a: seq<H.Op>, b: seq<H.Op>)
    ensures H.Posts(a + b) == H.Posts(a) + H.Posts(b)
  {
    if b == [] {
      assert a + b == a;
    } else {
      assert (a + b)[..|a + b| - 1] == a + b[..|b| - 1];
      PostsAppend(a, b[..|b| - 1]);
    }
  }

  /** First come, first woken, with the exact bound: the process at position `i` of a semaphore's waiting list keeps
      waiting as long as no more than `i` posts were made on it, whatever else happens, and the next post then
      makes it run. */
  lemma {:induction false} FifoWakeup(ks: seq<K>, es: seq<Event>, s: Ref, i: nat)
    requires Run(ks, es) && Inv(ks[0]) && s in ks[0].sems && i < |View(ks[0], s).waiters|
    requires H.Posts(OpsAlong(ks, es, s)) <= i
    ensures var p := View(ks[0], s).waiters[i];
            var k := ks[|es|];
            && p in k.waiting && k.running != p
            && (H.Posts(OpsAlong(ks, es, s)) == i && k.running in k.procs ==>
                  forall fd :: Names(k, fd, s) ==>
                    Step(k, SemPostCall(fd)).Ok? && Step(k, SemPostCall(fd)).value.running == p)
  {
    hide Inv, Step;
    var p := View(ks[0], s).waiters[i];
    var k := ks[|es|];
    WaitedStaysOpen(ks, es, s, i);
    WaitedPosition(ks[0], s, OpsAlong(ks, es, s), i);
    RunInv(ks, es);
    InvParts(k);
    ViewBalanced(k, s);
    assert p in View(k, s).waiters;
    NotRunning(k);
    if H.Posts(OpsAlong(ks, es, s)) == i && k.running in k.procs {
      forall fd | Names(k, fd, s) ensures Step(k, SemPostCall(fd)).Ok? && Step(k, SemPostCall(fd)).value.running == p {
        PostWakesHead(k, fd, s);
      }
    }
  }

  lemma PostWakesHead(k: K, fd: int, s: Ref)
    requires Inv(k) && k.running in k.procs && s in k.sems && Names(k, fd, s) && View(k, s).waiters != []
    ensures Step(k, SemPostCall(fd)).Ok? && Step(k, SemPostCall(fd)).value.running == View(k, s).waiters[0]
  {
    hide Inv, Step;
    InvParts(k);
    ViewBalanced(k, s);
    StepKeeps(k, SemPostCall(fd));
    StepEffect(k, SemPostCall(fd));
  }

  // ---- the ready queue

  /** How many processes the step takes from the head of the ready queue. */
  ghost function HeadPops(k: K, e: Event): nat
    requires k.running in k.procs
  {
    match EffectOf(k, e)
    case Popped => 1
    case Rotated(w) => if w + k.ready == [] then 0 else 1
    case _ => 0
  }

  /** How many processes the step puts in front of the ready queue: timer wake-ups only. */
  ghost function PutAhead(k: K, e: Event): nat
    requires k.running in k.procs
  {
    match EffectOf(k, e) case Rotated(w) => |w| case _ => 0
  }

  /** `i + wake-ups put ahead - head pops` along the run: the place of the process that was at index `i`. */
  ghost function Place(ks: seq<K>, es: seq<Event>, i: int): int
    requires Run(ks, es)
  {
    if es == [] then i
    else
      RunPrefix(ks, es);
      var k, e := ks[|es| - 1], es[|es| - 1];
      Place(ks[..|es|], es[..|es| - 1], i) + PutAhead(k, e) - HeadPops(k, e)
  }

  /** In one step a ready process moves exactly by the wake-ups put ahead of it less the head pop; it is
      dispatched when that takes it past the front. Posts and spawns never overtake it. */
  lemma PlaceStep(k: K, e: Event, k1: K, j: nat)
    requires Inv(k) && Follows(k, e, k1) && j < |k.ready|
    ensures var d := j + PutAhead(k, e) - HeadPops(k, e);
            if d >= 0 then d < |k1.ready| && k1.ready[d] == k.ready[j] else d == -1 && k1.running == k.ready[j]
  {
    hide Inv, Step, EffectOf;
    StepInv(k, e, k1);
  }

  /** The exact dispatch bound: a process at index `i` of the ready queue is at `Place` as long as that has not
      fallen below zero, and at the step where it does the process is dispatched. */
  lemma {:induction false} DispatchBound(ks: seq<K>, es: seq<Event>, i: nat)
    requires Run(ks, es) && Inv(ks[0]) && i < |ks[0].ready|
    requires forall m :: 0 <= m < |es| ==> PlacedAt(ks, es, i, m)
    ensures var d := Place(ks, es, i);
            if d >= 0 then d < |ks[|es|].ready| && ks[|es|].ready[d] == ks[0].ready[i]
            else d == -1 && ks[|es|].running == ks[0].ready[i]
  {
    hide Inv, Step, Follows, HeadPops, PutAhead;
    if es != [] {
      var n := |es| - 1;
      RunPrefix(ks, es);
      var ks0, es0 := ks[..|es|], es[..n];
      forall m | 0 <= m < |es0| ensures PlacedAt(ks0, es0, i, m) {
        assert PlacedAt(ks, es, i, m);
        assert ks0[..m + 1] == ks[..m + 1] && es0[..m] == es[..m];
      }
      DispatchBound(ks0, es0, i);
      assert PlacedAt(ks, es, i, n);
      RunInv(ks, es);
      PlaceStep(ks[n], es[n], ks[n + 1], Place(ks0, es0, i));
    }
  }

  /** After the first `m` steps the process has not been dispatched yet. */
  ghost predicate PlacedAt(ks: seq<K>, es: seq<Event>, i: int, m: nat)
    requires m <= |es| && |ks| == |es| + 1
  {
    Run(ks[..m + 1], es[..m]) && Place(ks[..m + 1], es[..m], i) >= 0
  }
}
