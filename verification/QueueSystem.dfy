/** The message queue on the kernel: producers and consumers are processes, their waits and posts are system calls,
    and everything else the machine does (ticks, other processes' calls) happens in between. */
module QueueSystems {
  import opened Outcomes
  import opened KernelState
  import opened KernelInvariant
  import opened KernelMoves
  import opened KernelSteps
  import opened KernelEffects
  import opened KernelSemaphores
  import opened KernelRuns
  import opened KernelTables
  import Q = QueueProtocol
  import H = HandoffSemaphore

  /** The numbers stored in the queue object, and the semaphores they stand for. */
  datatype Setup = Setup(fdEmpty: int, fdFull: int, fdMutex: int, empty: Ref, full: Ref, mutex: Ref)

  datatype Sys = Sys(k: K, d: Q.Data)

  function FdOf(c: Setup, w: Q.Which): int {
    match w case Empty => c.fdEmpty case Full => c.fdFull case Mutex => c.fdMutex
  }

  function SemOf(c: Setup, w: Q.Which): Ref {
    match w case Empty => c.empty case Full => c.full case Mutex => c.mutex
  }

  predicate Present(k: K, c: Setup) { forall w :: SemOf(c, w) in k.sems }

  predicate Separate(c: Setup) { c.empty != c.full && c.full != c.mutex && c.mutex != c.empty }

  /** The process has all three semaphores open under the queue's numbers. */
  ghost predicate HasQueue(k: K, c: Setup, p: Pid) { forall w :: HasOpen(k, p, FdOf(c, w), SemOf(c, w)) }

  /** The protocol's state inside the machine's. */
  ghost function Seen(x: Sys, c: Setup): Q.Queue
    requires Present(x.k, c)
  {
    Q.Queue(View(x.k, SemOf(c, Q.Empty)), View(x.k, SemOf(c, Q.Full)), View(x.k, SemOf(c, Q.Mutex)), x.d)
  }

  /** A process inside push-back or pop-front: if the kernel has it waiting, that is because of the queue. */
  ghost predicate InFlight(x: Sys, c: Setup, p: Pid)
    requires Present(x.k, c)
  {
    HasQueue(x.k, c, p) && (p in x.k.waiting ==> Q.Blocked(Seen(x, c), p))
  }

  ghost predicate SysInv(x: Sys, c: Setup) {
    && Inv(x.k) && Separate(c) && Present(x.k, c) && Q.Inv(Seen(x, c))
    && forall p :: p in x.d.pc ==> InFlight(x, c, p)
  }

  // ---- steps of the machine

  /** The running process starts a push or a pop, or executes its next instruction of one; or something else happens. */
  datatype SysMove = BeginPush(m: Q.Msg) | BeginPop | Instruct | Other(e: Event)

  function EventOf(c: Setup, i: Q.Instr): Event
    requires !i.Local?
  {
    match i case WaitOn(w) => SemWaitCall(FdOf(c, w)) case PostOn(w) => SemPostCall(FdOf(c, w))
  }

  /** A tick, or a call of a process that is not inside a queue operation and does not wait or post on the queue's
      semaphores. It may close them: that only matters when no operation is in flight. */
  ghost predicate Foreign(x: Sys, e: Event, c: Setup) {
    && (forall w :: OpsOn(x.k, e, SemOf(c, w)) == [])
    && (e == TickEvent || e == PreemptCall || x.k.running !in x.d.pc)
  }

  ghost predicate SysStep(x: Sys, mv: SysMove, y: Sys, c: Setup) {
    x.k.running in x.k.procs &&
    match mv
    case BeginPush(m) =>
      && HasQueue(x.k, c, x.k.running) && x.k.running !in x.d.pc
      && y == Sys(x.k, Q.Start(x.d, x.k.running, Q.PushWaitEmpty(m)))
    case BeginPop =>
      && HasQueue(x.k, c, x.k.running) && x.k.running !in x.d.pc
      && y == Sys(x.k, Q.Start(x.d, x.k.running, Q.PopWaitFull))
    case Instruct =>
      && x.k.running in x.d.pc && Q.WellFormed(x.d) && y.d == Q.Advance(x.d, x.k.running)
      && var i := Q.InstrOf(x.d.pc[x.k.running]);
         if i.Local? then y.k == x.k else Follows(x.k, EventOf(c, i), y.k)
    case Other(e) =>
      && Foreign(x, e, c) && Follows(x.k, e, y.k) && y.d == x.d
      && ((forall p :: p !in x.d.pc) ==> Present(y.k, c))
  }

  /** The protocol move the machine makes, if it makes one. */
  function MoveOf(x: Sys, mv: SysMove): Option<Q.Move> {
    match mv
    case BeginPush(m) => Some(Q.StartPush(x.k.running, m))
    case BeginPop => Some(Q.StartPop(x.k.running))
    case Instruct => Some(Q.Execute(x.k.running))
    case Other(_) => None
  }

  // ---- semaphore calls

  lemma OpsOfInstr(k: K, c: Setup, i: Q.Instr, w: Q.Which)
    requires Inv(k) && k.running in k.procs && Separate(c) && HasQueue(k, c, k.running) && !i.Local?
    ensures OpsOn(k, EventOf(c, i), SemOf(c, w)) ==
            if i == Q.WaitOn(w) then [H.WaitBy(k.running)] else if i == Q.PostOn(w) then [H.Post] else []
  {
    hide Inv;
    var v := i.w;
    assert HasOpen(k, k.running, FdOf(c, v), SemOf(c, v));
    HasOpenNames(k, FdOf(c, v), SemOf(c, v));
    assert Names(k, FdOf(c, v), SemOf(c, w)) <==> v == w;
  }

  lemma ExecOne(s: H.Sem, op: H.Op)
    ensures H.Exec(s, [op]) == H.Apply(s, op) && H.Exec(s, []) == s
  {
    assert [op][..0] == [];
  }

  /** Each of the three semaphores changes under the call as the protocol says. */
  lemma SemFollows(k: K, k1: K, c: Setup, i: Q.Instr, w: Q.Which)
    requires Inv(k) && k.running in k.procs && Separate(c) && HasQueue(k, c, k.running) && !i.Local? && Present(k, c)
    requires Follows(k, EventOf(c, i), k1)
    ensures SemOf(c, w) in k1.sems
    ensures View(k1, SemOf(c, w)) == Q.SemAfter(View(k, SemOf(c, w)), w, i, k.running)
  {
    hide Inv, Step, View, OpsOn, HasQueue;
    assert SemOf(c, w) in k.sems;
    OpsOfInstr(k, c, i, w);
    SemStep(k, EventOf(c, i), SemOf(c, w));
    ExecOne(View(k, SemOf(c, w)), if i.WaitOn? then H.WaitBy(k.running) else H.Post);
  }

  /** A wait makes nobody wait but its caller, and the caller only when there is no permit. */
  lemma WaitShown(k: K, fd: int, k1: K, s: Ref, r: Pid)
    requires Inv(k) && Follows(k, SemWaitCall(fd), k1) && Names(k, fd, s) && s in k.sems && r in k1.waiting
    ensures r in k.waiting || (r == k.running && View(k, s).count <= 0)
  {
    hide Inv, Step, SchedInv;
    StepInv(k, SemWaitCall(fd), k1);
    InvParts(k1);
    NotRunning(k1);
  }

  /** A post makes nobody wait, and the head of its semaphore's list waits no longer. */
  lemma PostShown(k: K, fd: int, k1: K, s: Ref, r: Pid)
    requires Inv(k) && Follows(k, SemPostCall(fd), k1) && Names(k, fd, s) && s in k.sems && r in k1.waiting
    ensures r in k.waiting
    ensures View(k, s).waiters != [] ==> r != View(k, s).waiters[0]
  {
    hide Inv, Step, View, Names, EffectOf, Shows;
    StepInv(k, SemPostCall(fd), k1);
    StaysAwake(k, SemPostCall(fd), k1);
    if View(k, s).waiters != [] { PostWakesHead(k, fd, s); }
  }

  /** The caller of a post, or whoever a tick interrupts, is not waiting afterwards, nor is whoever runs then. */
  lemma StaysAwake(k: K, e: Event, k1: K)
    requires Inv(k1) && k.running in k.procs && Shows(k, EffectOf(k, e), k1)
    requires e.SemPostCall? || e == TickEvent || e == PreemptCall
    ensures k1.running !in k1.waiting && forall p :: p in k1.waiting ==> p in k.waiting
  {
    hide Inv, SchedInv, Lookup, PostHandsOff, PostHead;
    InvParts(k1);
    NotRunning(k1);
    ReadyNotWaiting(k1);
    assert k1.running == k.running || k.running in k1.ready;
  }

  lemma ReadyNotWaiting(k: K)
    requires SchedInv(k)
    ensures forall p :: p in k.ready ==> p !in k.waiting
  {
    forall p | p in k.ready ensures p !in k.waiting {
      assert Placed(k, p, Ready) && (p in k.waiting ==> Placed(k, p, Waiting));
    }
  }

  lemma RunningFree(x: Sys, c: Setup)
    requires SysInv(x, c) && x.k.running in x.k.procs
    ensures x.k.running !in x.k.waiting && !Q.Blocked(Seen(x, c), x.k.running)
  {
    hide Q.Inv, SchedInv, ReasonInv, TimerInv, DescInv, FamilyInv, PoolInv, View;
    NotRunning(x.k);
    ViewBalanced(x.k, SemOf(c, Q.Empty));
    ViewBalanced(x.k, SemOf(c, Q.Full));
    ViewBalanced(x.k, SemOf(c, Q.Mutex));
  }

  // ---- the machine refines the protocol

  lemma BeginStep(x: Sys, mv: SysMove, y: Sys, c: Setup)
    requires SysInv(x, c) && SysStep(x, mv, y, c) && (mv.BeginPush? || mv.BeginPop?)
    ensures Q.Enabled(Seen(x, c), MoveOf(x, mv).value) && Present(y.k, c)
    ensures Seen(y, c) == Q.Next(Seen(x, c), MoveOf(x, mv).value)
    ensures SysInv(y, c)
  {
    hide Inv, Q.Inv, HasQueue, View;
    RunningFree(x, c);
    Q.InvHead(Seen(x, c));
    Q.NextKeeps(Seen(x, c), MoveOf(x, mv).value);
    forall p | p in y.d.pc ensures InFlight(y, c, p) {
      if p != x.k.running { assert InFlight(x, c, p); }
    }
  }

  lemma LocalStep(x: Sys, y: Sys, c: Setup)
    requires SysInv(x, c) && SysStep(x, Instruct, y, c) && Q.InstrOf(x.d.pc[x.k.running]).Local?
    ensures Q.Enabled(Seen(x, c), Q.Execute(x.k.running)) && Present(y.k, c)
    ensures Seen(y, c) == Q.Next(Seen(x, c), Q.Execute(x.k.running))
    ensures SysInv(y, c)
  {
    hide Inv, Q.Inv, HasQueue, View;
    RunningFree(x, c);
    Q.InvHead(Seen(x, c));
    Q.NextKeeps(Seen(x, c), Q.Execute(x.k.running));
    forall p | p in y.d.pc ensures InFlight(y, c, p) { assert InFlight(x, c, p); }
  }

  lemma CallStep(x: Sys, y: Sys, c: Setup)
    requires SysInv(x, c) && SysStep(x, Instruct, y, c) && !Q.InstrOf(x.d.pc[x.k.running]).Local?
    ensures Q.Enabled(Seen(x, c), Q.Execute(x.k.running)) && Present(y.k, c)
    ensures Seen(y, c) == Q.Next(Seen(x, c), Q.Execute(x.k.running))
    ensures SysInv(y, c)
  {
    hide Inv, Q.Inv, HasQueue, View, Step, Follows;
    var p, i := x.k.running, Q.InstrOf(x.d.pc[x.k.running]);
    RunningFree(x, c);
    Q.InvHead(Seen(x, c));
    assert InFlight(x, c, p);
    forall w ensures SemOf(c, w) in y.k.sems && View(y.k, SemOf(c, w)) == Q.SemAfter(View(x.k, SemOf(c, w)), w, i, p) {
      SemFollows(x.k, y.k, c, i, w);
    }
    Q.NextKeeps(Seen(x, c), Q.Execute(p));
    StepInv(x.k, EventOf(c, i), y.k);
    forall r | r in y.d.pc ensures InFlight(y, c, r) {
      assert r in x.d.pc;
      assert InFlight(x, c, r);
      QueueStays(x.k, EventOf(c, i), y.k, c, r);
      if r in y.k.waiting { StillBlocked(x, y, c, i, r); }
    }
  }

  lemma QueueStays(k: K, e: Event, k1: K, c: Setup, r: Pid)
    requires Inv(k) && Follows(k, e, k1) && HasQueue(k, c, r) && (e.SemCloseCall? ==> r != k.running)
    ensures HasQueue(k1, c, r)
  {
    hide Inv, Follows, HasOpen;
    forall w ensures HasOpen(k1, r, FdOf(c, w), SemOf(c, w)) { StepTables(k, e, k1, r, FdOf(c, w), SemOf(c, w)); }
  }

  /** Whom the kernel keeps waiting after the call is still on one of the three lists. */
  lemma StillBlocked(x: Sys, y: Sys, c: Setup, i: Q.Instr, r: Pid)
    requires Inv(x.k) && Separate(c) && Present(x.k, c) && Present(y.k, c) && !i.Local?
    requires HasQueue(x.k, c, x.k.running) && Follows(x.k, EventOf(c, i), y.k) && r in y.k.waiting
    requires r in x.k.waiting ==> Q.Blocked(Seen(x, c), r)
    requires forall w :: View(y.k, SemOf(c, w)) == Q.SemAfter(View(x.k, SemOf(c, w)), w, i, x.k.running)
    ensures Q.Blocked(Seen(y, c), r)
  {
    hide Inv, View, Follows, HasOpen;
    var w := i.w;
    HasOpenNames(x.k, FdOf(c, w), SemOf(c, w)) by { FollowsStep(x.k, EventOf(c, i), y.k); }
    if i.WaitOn? {
      WaitShown(x.k, FdOf(c, w), y.k, SemOf(c, w), r);
    } else {
      PostShown(x.k, FdOf(c, w), y.k, SemOf(c, w), r);
    }
  }

  lemma OtherStep(x: Sys, e: Event, y: Sys, c: Setup)
    requires SysInv(x, c) && SysStep(x, Other(e), y, c)
    ensures Present(y.k, c) && Seen(y, c) == Seen(x, c) && SysInv(y, c)
  {
    hide Inv, Q.Inv, HasQueue, View, Step, OpsOn, Follows;
    StepInv(x.k, e, y.k);
    StillPresent(x, e, y, c);
    forall w ensures View(y.k, SemOf(c, w)) == View(x.k, SemOf(c, w)) {
      assert SemOf(c, w) in x.k.sems && SemOf(c, w) in y.k.sems && OpsOn(x.k, e, SemOf(c, w)) == [];
      FollowsStep(x.k, e, y.k);
      SemStep(x.k, e, SemOf(c, w));
      ExecOne(View(x.k, SemOf(c, w)), H.Post);
    }
    assert Seen(y, c) == Seen(x, c);
    forall r | r in y.d.pc ensures InFlight(y, c, r) {
      assert InFlight(x, c, r);
      QueueStays(x.k, e, y.k, c, r);
      if r in y.k.waiting { OtherWaiting(x.k, e, y.k, r); }
    }
  }

  /** An operation in flight keeps the queue's semaphores open, whoever else closes them. */
  lemma StillPresent(x: Sys, e: Event, y: Sys, c: Setup)
    requires SysInv(x, c) && SysStep(x, Other(e), y, c) && Inv(y.k)
    ensures Present(y.k, c)
  {
    hide Inv, Q.Inv, HasOpen, View, Step, OpsOn, Follows;
    if p :| p in x.d.pc {
      assert InFlight(x, c, p);
      QueueStays(x.k, e, y.k, c, p);
      forall w ensures SemOf(c, w) in y.k.sems { OpenExists(y.k, p, FdOf(c, w), SemOf(c, w)); }
    }
  }

  lemma OtherWaiting(k: K, e: Event, k1: K, r: Pid)
    requires k.running in k.procs && Inv(k1) && Shows(k, EffectOf(k, e), k1) && r in k1.waiting
    requires e == TickEvent || e == PreemptCall || r != k.running
    ensures r in k.waiting
  {
    hide Inv, EffectOf;
    if e == TickEvent || e == PreemptCall { StaysAwake(k, e, k1); }
  }

  /** Every step of the machine is the protocol move it makes, or leaves the protocol's state alone; and it keeps
      both invariants and what ties them together. */
  lemma StepRefines(x: Sys, mv: SysMove, y: Sys, c: Setup)
    requires SysInv(x, c) && SysStep(x, mv, y, c)
    ensures SysInv(y, c)
    ensures match MoveOf(x, mv)
            case None => Seen(y, c) == Seen(x, c)
            case Some(move) => Q.Enabled(Seen(x, c), move) && Seen(y, c) == Q.Next(Seen(x, c), move)
  {
    hide SysInv, SysStep;
    match mv
    case BeginPush(_) => BeginStep(x, mv, y, c);
    case BeginPop => BeginStep(x, mv, y, c);
    case Instruct =>
      InstructsRunning(x, y, c);
      if Q.InstrOf(x.d.pc[x.k.running]).Local? { LocalStep(x, y, c); } else { CallStep(x, y, c); }
    case Other(e) => OtherStep(x, e, y, c);
  }

  lemma InstructsRunning(x: Sys, y: Sys, c: Setup)
    requires SysStep(x, Instruct, y, c)
    ensures x.k.running in x.d.pc
  {
  }

  ghost predicate SysRun(xs: seq<Sys>, mvs: seq<SysMove>, c: Setup) {
    |xs| == |mvs| + 1 && forall i :: 0 <= i < |mvs| ==> SysStep(xs[i], mvs[i], xs[i + 1], c)
  }

  /** The protocol moves that the run makes, in order. */
  function MovesOf(xs: seq<Sys>, mvs: seq<SysMove>): seq<Q.Move>
    requires |xs| == |mvs| + 1
  {
    if mvs == [] then []
    else
      var n := |mvs| - 1;
      var mv := MoveOf(xs[n], mvs[n]);
      MovesOf(xs[..|mvs|], mvs[..n]) + (if mv.Some? then [mv.value] else [])
  }

  /** What the pops of the run have returned, and to which processes. */
  function ResultsOf(xs: seq<Sys>, mvs: seq<SysMove>): seq<(Pid, Q.Msg)>
    requires |xs| == |mvs| + 1
  {
    if mvs == [] then []
    else
      var n := |mvs| - 1;
      var p, pc := xs[n].k.running, xs[n].d.pc;
      var r := if mvs[n].Instruct? && p in pc then Q.Result(pc[p]) else None;
      ResultsOf(xs[..|mvs|], mvs[..n]) + (if r.Some? then [(p, r.value)] else [])
  }

  /** What `p` passed to the push-back it called last, if it has not called pop-front since. */
  function Passed(xs: seq<Sys>, mvs: seq<SysMove>, p: Pid): Option<Q.Msg>
    requires |xs| == |mvs| + 1
  {
    if mvs == [] then None
    else
      var n := |mvs| - 1;
      var before := Passed(xs[..|mvs|], mvs[..n], p);
      if xs[n].k.running != p then before
      else
        match mvs[n]
        case BeginPush(m) => Some(m)
        case BeginPop => None
        case _ => before
  }

  /** The argument that the protocol's moves give a push is the one its process passed. */
  lemma {:induction false} ArgumentsPassed(xs: seq<Sys>, mvs: seq<SysMove>, p: Pid)
    requires |xs| == |mvs| + 1
    ensures var call := Q.CallOf(MovesOf(xs, mvs), p);
            Passed(xs, mvs, p) == if call.PushCall? then Some(call.m) else None
  {
    hide Q.CallOf, Q.Stored, Q.Removed, Q.Turn, Q.Finished;
    if mvs == [] {
      NothingCalled(p);
    } else {
      var n := |mvs| - 1;
      ArgumentsPassed(xs[..|mvs|], mvs[..n], p);
      var before, mv := MovesOf(xs[..|mvs|], mvs[..n]), MoveOf(xs[n], mvs[n]);
      match mv
      case None => assert before + [] == before;
      case Some(move) => Q.LastMove(before, move, p);
    }
  }

  lemma NothingCalled(p: Pid)
    ensures Q.CallOf([], p) == Q.NoCall
  {
  }

  /** Refinement over whole runs: whatever the kernel interleaves, the queue makes a run of the protocol that ends
      in the state the machine shows. So what `QueueProtocol` proves of every run holds on the kernel. */
  lemma {:induction false} RunRefines(xs: seq<Sys>, mvs: seq<SysMove>, c: Setup)
      returns (qs: seq<Q.Queue>, moves: seq<Q.Move>)
    requires SysRun(xs, mvs, c) && SysInv(xs[0], c)
    ensures SysInv(xs[|mvs|], c)
    ensures Q.Steps(qs, moves) && qs[0] == Seen(xs[0], c) && qs[|moves|] == Seen(xs[|mvs|], c)
    ensures moves == MovesOf(xs, mvs) && Q.Returned(qs, moves) == ResultsOf(xs, mvs)
  {
    hide SysInv, SysStep, Seen, Q.Enabled, Q.Next, Q.Returned;
    if mvs == [] {
      assert Present(xs[0].k, c) by { PresentIn(xs[0], c); }
      qs, moves := [Seen(xs[0], c)], [];
      assert Q.Returned(qs, []) == [] by { NothingReturned(qs); }
    } else {
      var n := |mvs| - 1;
      var xs0, mvs0 := xs[..|mvs|], mvs[..n];
      forall i | 0 <= i < |mvs0| ensures SysStep(xs0[i], mvs0[i], xs0[i + 1], c) {
        assert SysStep(xs[i], mvs[i], xs[i + 1], c);
      }
      qs, moves := RunRefines(xs0, mvs0, c);
      assert SysStep(xs[n], mvs[n], xs[n + 1], c);
      StepRefines(xs[n], mvs[n], xs[n + 1], c);
      if MoveOf(xs[n], mvs[n]).Some? {
        assert Present(xs[n].k, c) by { PresentIn(xs0[n], c); }
        assert Seen(xs[n], c).d == xs[n].d by { SeenData(xs[n], c); }
        qs, moves := StepsAppend(qs, moves, MoveOf(xs[n], mvs[n]).value);
      }
    }
  }

  lemma PresentIn(x: Sys, c: Setup)
    requires SysInv(x, c)
    ensures Present(x.k, c)
  {
  }

  lemma StepsAppend(qs: seq<Q.Queue>, moves: seq<Q.Move>, mv: Q.Move) returns (qs1: seq<Q.Queue>, moves1: seq<Q.Move>)
    requires Q.Steps(qs, moves) && Q.Enabled(qs[|moves|], mv)
    ensures Q.Steps(qs1, moves1) && qs1[0] == qs[0] && moves1 == moves + [mv]
    ensures qs1[|moves1|] == Q.Next(qs[|moves|], mv)
    ensures var pc := qs[|moves|].d.pc;
            var r := if mv.Execute? && mv.p in pc then Q.Result(pc[mv.p]) else None;
            Q.Returned(qs1, moves1) == Q.Returned(qs, moves) + (if r.Some? then [(mv.p, r.value)] else [])
  {
    hide Q.Enabled, Q.Next;
    qs1, moves1 := qs + [Q.Next(qs[|moves|], mv)], moves + [mv];
    assert qs1[..|moves1|] == qs && moves1[..|moves|] == moves;
  }

  lemma SeenData(x: Sys, c: Setup)
    requires Present(x.k, c)
    ensures Seen(x, c).d == x.d
  {
  }

  lemma NothingReturned(qs: seq<Q.Queue>)
    requires |qs| == 1
    ensures Q.Returned(qs, []) == []
  {
  }

  // ---- what this gives on the kernel

  /** On the machine, from the opened queue: the ring holds exactly the messages passed to push-back, in the order in
      which they were stored, less those removed; and the pop-front that was the n-th to remove one returns, to the
      process that called it, the n-th that was stored. No message is lost, duplicated or reordered. */
  lemma QueueIsFifo(xs: seq<Sys>, mvs: seq<SysMove>, c: Setup, slots: seq<Q.Msg>)
    requires SysRun(xs, mvs, c) && SysInv(xs[0], c) && Seen(xs[0], c) == Q.Opened(slots) && Q.CAPACITY <= |slots|
    ensures var d, moves := xs[|mvs|].d, MovesOf(xs, mvs);
            && Q.WellFormed(d) && Q.Live(d) >= 0 && Q.Removed(moves) <= |Q.Stored(moves)|
            && Q.Window(d.slots, d.front, Q.Live(d)) == Q.Stored(moves)[Q.Removed(moves)..]
            && d.size <= Q.CAPACITY
    ensures var rs, fs, stored := ResultsOf(xs, mvs), Q.Finished(MovesOf(xs, mvs)), Q.Stored(MovesOf(xs, mvs));
            && |rs| == |fs|
            && (forall i :: 0 <= i < |fs| ==>
                  rs[i].0 == fs[i].0 && fs[i].1 < |stored| && rs[i].1 == stored[fs[i].1])
            && (forall i, j :: 0 <= i < j < |fs| ==> fs[i].1 != fs[j].1)
  {
    hide Inv, Q.Inv, SysStep, Q.Enabled, Q.Next, Q.Returned, Q.Finished, Q.Stored, Q.Removed;
    var qs, moves := RunRefines(xs, mvs, c);
    Q.FirstInFirstOut(qs, moves, slots);
    Q.PopsReturn(qs, moves, slots);
    Q.DeliveredOnce(moves);
  }

  /** From any state of the machine: the ring holds what has been pushed and not popped. */
  lemma RingHoldsRest(xs: seq<Sys>, mvs: seq<SysMove>, c: Setup)
    requires SysRun(xs, mvs, c) && SysInv(xs[0], c)
    ensures var d := xs[|mvs|].d;
            && Q.WellFormed(d) && Q.Live(d) >= 0
            && d.pushed == d.popped + Q.Window(d.slots, d.front, Q.Live(d))
            && d.size <= Q.CAPACITY
  {
    hide Inv, Q.Inv;
    var qs, moves := RunRefines(xs, mvs, c);
    var q := Seen(xs[|mvs|], c);
    Q.InvHead(q);
    Q.TokenConservation(q);
  }

  /** A process inside a queue operation is running, ready, or on one of the queue's three waiting lists. */
  lemma WhereInFlight(x: Sys, c: Setup, p: Pid)
    requires SysInv(x, c) && p in x.d.pc
    ensures p == x.k.running || p in x.k.ready || Q.Blocked(Seen(x, c), p)
    ensures p in x.k.procs
  {
    hide Q.Inv, ReasonInv, TimerInv, DescInv, FamilyInv, PoolInv, View;
    assert InFlight(x, c, p);
    assert HasOpen(x.k, p, FdOf(c, Q.Empty), SemOf(c, Q.Empty));
    assert p == x.k.running || !Unlinked(x.k, p);
    if p in x.k.zombies { DeadHasNone(x.k, p); }
  }

  /** Deadlock freedom on the machine: when the kernel can run none of the processes inside a queue operation, either
      all of them are producers and the ring holds `CAPACITY` messages, or all are consumers and it is empty. */
  lemma QueueNeverStuck(x: Sys, c: Setup, some: Pid)
    requires SysInv(x, c) && some in x.d.pc
    requires forall p :: p in x.d.pc ==> p != x.k.running && p !in x.k.ready
    ensures || (x.d.size == Q.CAPACITY && forall p :: p in x.d.pc ==> x.d.pc[p].PushWaitMutex? && p in x.k.waiting)
            || (x.d.size == 0 && forall p :: p in x.d.pc ==> x.d.pc[p].PopWaitMutex? && p in x.k.waiting)
  {
    hide Inv, Q.Inv, View;
    forall p | p in x.d.pc ensures Q.Blocked(Seen(x, c), p) && p in x.k.waiting {
      WhereInFlight(x, c, p);
      BlockedWaits(x, c, p);
    }
    Q.DeadlockFree(Seen(x, c), some);
  }

  lemma BlockedWaits(x: Sys, c: Setup, p: Pid)
    requires Inv(x.k) && Present(x.k, c) && Q.Blocked(Seen(x, c), p)
    ensures p in x.k.waiting
  {
    hide SchedInv, ReasonInv, TimerInv, DescInv, FamilyInv, PoolInv, View;
    ViewBalanced(x.k, SemOf(c, Q.Empty));
    ViewBalanced(x.k, SemOf(c, Q.Full));
    ViewBalanced(x.k, SemOf(c, Q.Mutex));
  }

  /** Mutual exclusion on the machine: two processes that the kernel lets run are never both inside the critical
      sections. */
  lemma CriticalSectionsExclude(x: Sys, c: Setup, p: Pid, r: Pid)
    requires SysInv(x, c) && p in x.d.pc && r in x.d.pc && Q.Inside(x.d.pc[p]) && Q.Inside(x.d.pc[r])
    requires p !in x.k.waiting && r !in x.k.waiting
    ensures p == r
  {
    hide Inv, Q.Inv, View;
    if Q.Blocked(Seen(x, c), p) { BlockedWaits(x, c, p); }
    if Q.Blocked(Seen(x, c), r) { BlockedWaits(x, c, r); }
    Q.MutualExclusion(Seen(x, c), p, r);
  }

  /** With an idle process, a process inside a queue operation can always execute its next instruction when the
      kernel runs it: no wait or post of the protocol faults. */
  lemma InstructionsRun(x: Sys, c: Setup, idle: Pid)
    requires SysInv(x, c) && Alive(x.k, idle) && idle !in x.d.pc && x.k.running in x.d.pc
    ensures exists y :: SysStep(x, Instruct, y, c) && Alive(y.k, idle)
  {
    hide Inv, Q.Inv, View, Step, HasQueue;
    WhereInFlight(x, c, x.k.running);
    Q.InvHead(Seen(x, c));
    var i := Q.InstrOf(x.d.pc[x.k.running]);
    var d := Q.Advance(x.d, x.k.running);
    if i.Local? {
      assert SysStep(x, Instruct, Sys(x.k, d), c);
    } else {
      var e := EventOf(c, i);
      IdleMakesSafe(x.k, e, idle);
      assert SysStep(x, Instruct, Sys(Step(x.k, e).value, d), c);
    }
  }
}
