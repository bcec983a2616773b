/** The queue object itself: opening it on a kernel, and its critical sections on the array in place. */
module MessageQueues {
  import opened Outcomes
  import opened KernelState
  import opened KernelInvariant
  import opened KernelSteps
  import opened KernelSemaphores
  import opened KernelResults
  import opened KernelExamples
  import opened KernelRuns
  import opened KernelTables
  import opened Kernels
  import opened QueueSystems
  import H = HandoffSemaphore
  import Q = QueueProtocol

  const ID_EMPTY := 1
  const ID_FULL := 2
  const ID_MUTEX := 3

  // ---- opening a queue on a running machine

  /** What the machine does between two of the caller's system calls: any steps, ending when the caller runs again. */
  datatype Between = Between(ks: seq<K>, es: seq<Event>)

  ghost predicate Meanwhile(b: Between, p: Pid) { Run(b.ks, b.es) && b.ks[|b.es|].running == p }

  /** Nobody waits or posts on `s` meanwhile, and `p` closes nothing. */
  ghost predicate Leaves(b: Between, p: Pid, s: Ref)
    requires Run(b.ks, b.es)
  {
    forall i :: 0 <= i < |b.es| ==>
      OpsOn(b.ks[i], b.es[i], s) == [] && (b.es[i].SemCloseCall? ==> b.ks[i].running != p)
  }

  /** From `k` to `k1` the semaphore stays as it is, and stays open to `p` under the same number. */
  ghost predicate StaysOpen(k: K, k1: K, p: Pid, fd: int, s: Ref) {
    && HasOpen(k, p, fd, s) && HasOpen(k1, p, fd, s) && s in k.sems && s in k1.sems
    && View(k1, s) == View(k, s) && k1.sems[s].id == k.sems[s].id
  }

  lemma {:induction false} MeanwhileKeeps(b: Between, p: Pid, fd: int, s: Ref)
    requires Run(b.ks, b.es) && Inv(b.ks[0]) && Leaves(b, p, s) && HasOpen(b.ks[0], p, fd, s)
    ensures Inv(b.ks[|b.es|]) && StaysOpen(b.ks[0], b.ks[|b.es|], p, fd, s)
    decreases |b.es|
  {
    hide Inv, Step, View, OpsOn, HasOpen, Follows;
    RunInv(b.ks, b.es);
    OpenExists(b.ks[0], p, fd, s);
    if b.es != [] {
      var n := |b.es| - 1;
      RunPrefix(b.ks, b.es);
      var c := Between(b.ks[..|b.es|], b.es[..n]);
      forall i | 0 <= i < |c.es|
        ensures OpsOn(c.ks[i], c.es[i], s) == [] && (c.es[i].SemCloseCall? ==> c.ks[i].running != p)
      {
        assert c.ks[i] == b.ks[i] && c.es[i] == b.es[i];
      }
      MeanwhileKeeps(c, p, fd, s);
      var k, e, k1 := b.ks[n], b.es[n], b.ks[n + 1];
      assert c.ks[n] == k;
      FollowsStep(k, e, k1);
      StepTables(k, e, k1, p, fd, s);
      OpenExists(k1, p, fd, s);
      SemStep(k, e, s);
      StepIds(k, e, k1);
      assert H.Exec(View(k, s), []) == View(k, s);
    }
  }

  /** The value the last system call returned to its caller. */
  function Returned(k: K): int { if k.running in k.procs then k.procs[k.running].ret else 0 }

  /** The initialisation of a queue, from state `k` on: three opens by the same process, with whatever happens between
      them; and the numbers and semaphores it gets if they succeed. */
  datatype Opening = Opening(k: K, first: Between, second: Between, end: K, c: Setup)

  ghost predicate Calls(o: Opening) {
    && Inv(o.k) && Meanwhile(o.first, o.k.running) && Meanwhile(o.second, o.k.running)
    && Follows(o.k, SemOpenCall(ID_EMPTY, Q.CAPACITY), o.first.ks[0])
    && Follows(BeforeFull(o), SemOpenCall(ID_FULL, 0), o.second.ks[0])
    && Follows(BeforeMutex(o), SemOpenCall(ID_MUTEX, 1), o.end)
  }

  /** The calls succeed, and nobody interferes with a semaphore that has been opened. */
  ghost predicate Proceeds(o: Opening) {
    var p := o.k.running;
    && Calls(o)
    && OpensAs(o.k, ID_EMPTY, Q.CAPACITY, o.first.ks[0], p, o.c.fdEmpty, o.c.empty)
    && OpensAs(BeforeFull(o), ID_FULL, 0, o.second.ks[0], p, o.c.fdFull, o.c.full)
    && OpensAs(BeforeMutex(o), ID_MUTEX, 1, o.end, p, o.c.fdMutex, o.c.mutex)
    && Leaves(o.first, p, o.c.empty) && Leaves(o.second, p, o.c.empty) && Leaves(o.second, p, o.c.full)
  }

  ghost function BeforeFull(o: Opening): K
    requires |o.first.ks| == |o.first.es| + 1
  {
    o.first.ks[|o.first.es|]
  }

  ghost function BeforeMutex(o: Opening): K
    requires |o.second.ks| == |o.second.es| + 1
  {
    o.second.ks[|o.second.es|]
  }

  /** The open leads from `k` to `k1`, and returns the number `fd`, which names `s`. */
  ghost predicate OpensAs(k: K, id: int, count: int, k1: K, p: Pid, fd: int, s: Ref) {
    Follows(k, SemOpenCall(id, count), k1) && fd == Returned(k1) && HasOpen(k1, p, fd, s)
  }

  lemma OpenedAs(k: K, id: int, count: int, k1: K, fd: int, s: Ref)
    requires Inv(k) && OpensAs(k, id, count, k1, k.running, fd, s)
    ensures Inv(k1) && k1.running == k.running && s in k1.sems && k1.sems[s].id == id
    ensures View(k1, s) == H.Sem(count, []) <==> AsRequested(k, id, count)
  {
    hide Inv, HasOpen, View, Step, Follows, CanOpenSem;
    StepInv(k, SemOpenCall(id, count), k1);
    OpenExists(k1, k.running, fd, s);
    OpenResult(k, id, count, k1);
    HasOpenNames(k1, fd, s);
    assert IsOpen(k1, k1.running, fd);
    NumbersNat(k1, fd);
    var t :| HasOpen(k1, k.running, fd, t) && t in k1.sems && k1.sems[t].id == id;
    HasOpenNames(k1, fd, t);
    OpenCount(k, id, count, k1, s);
  }

  lemma NumbersNat(k: K, fd: int)
    requires Inv(k) && IsOpen(k, k.running, fd)
    ensures fd >= 0
  {
    hide SchedInv, ReasonInv, TimerInv, FamilyInv, PoolInv;
    assert ProcDescsOk(k, k.running);
  }

  /** Another open leaves a semaphore and its number as they were. */
  lemma OpenedStays(k: K, id: int, n: int, k1: K, p: Pid, fd: int, s: Ref)
    requires Inv(k) && Follows(k, SemOpenCall(id, n), k1) && HasOpen(k, p, fd, s)
    ensures StaysOpen(k, k1, p, fd, s)
  {
    hide Inv, Step, View, HasOpen;
    StepInv(k, SemOpenCall(id, n), k1);
    StepTables(k, SemOpenCall(id, n), k1, p, fd, s);
    OpenExists(k, p, fd, s);
    OpenExists(k1, p, fd, s);
    SemStep(k, SemOpenCall(id, n), s);
    StepIds(k, SemOpenCall(id, n), k1);
    assert H.Exec(View(k, s), []) == View(k, s);
  }

  /** The queue as opened: `k` is the kernel after the three calls. */
  ghost function Fresh(k: K, slots: seq<Q.Msg>): Sys { Sys(k, Q.Data(slots, 0, 0, map[], [], [])) }

  lemma FirstStays(o: Opening)
    requires Proceeds(o)
    ensures Inv(BeforeMutex(o)) && Inv(BeforeFull(o)) && Inv(o.end) && o.end.running == o.k.running
    ensures StaysOpen(o.first.ks[0], o.end, o.k.running, o.c.fdEmpty, o.c.empty)
  {
    hide Inv, View, Follows, HasOpen, Leaves, Returned;
    var p := o.k.running;
    OpenedAs(o.k, ID_EMPTY, Q.CAPACITY, o.first.ks[0], o.c.fdEmpty, o.c.empty);
    MeanwhileKeeps(o.first, p, o.c.fdEmpty, o.c.empty);
    OpenedAs(BeforeFull(o), ID_FULL, 0, o.second.ks[0], o.c.fdFull, o.c.full);
    OpenedStays(BeforeFull(o), ID_FULL, 0, o.second.ks[0], p, o.c.fdEmpty, o.c.empty);
    MeanwhileKeeps(o.second, p, o.c.fdEmpty, o.c.empty);
    OpenedAs(BeforeMutex(o), ID_MUTEX, 1, o.end, o.c.fdMutex, o.c.mutex);
    OpenedStays(BeforeMutex(o), ID_MUTEX, 1, o.end, p, o.c.fdEmpty, o.c.empty);
  }

  lemma SecondStays(o: Opening)
    requires Proceeds(o) && Inv(BeforeFull(o)) && Inv(BeforeMutex(o))
    ensures StaysOpen(o.second.ks[0], o.end, o.k.running, o.c.fdFull, o.c.full)
  {
    hide Inv, View, Follows, HasOpen, Leaves, Returned;
    var p := o.k.running;
    OpenedAs(BeforeFull(o), ID_FULL, 0, o.second.ks[0], o.c.fdFull, o.c.full);
    MeanwhileKeeps(o.second, p, o.c.fdFull, o.c.full);
    OpenedStays(BeforeMutex(o), ID_MUTEX, 1, o.end, p, o.c.fdFull, o.c.full);
  }

  /** Each of the three semaphores is named by its number at the end, and looks as its own open left it. */
  ghost predicate EndsAs(o: Opening, w: Q.Which, id: int, count: int, before: K) {
    && HasOpen(o.end, o.k.running, FdOf(o.c, w), SemOf(o.c, w))
    && SemOf(o.c, w) in o.end.sems && o.end.sems[SemOf(o.c, w)].id == id
    && (View(o.end, SemOf(o.c, w)) == H.Sem(count, []) <==> AsRequested(before, id, count))
  }

  lemma EmptyEnds(o: Opening)
    requires Proceeds(o)
    ensures EndsAs(o, Q.Empty, ID_EMPTY, Q.CAPACITY, o.k)
  {
    hide Inv, View, Follows, HasOpen, Leaves, AsRequested, Returned;
    FirstStays(o);
    OpenedAs(o.k, ID_EMPTY, Q.CAPACITY, o.first.ks[0], o.c.fdEmpty, o.c.empty);
  }

  lemma FullEnds(o: Opening)
    requires Proceeds(o)
    ensures EndsAs(o, Q.Full, ID_FULL, 0, BeforeFull(o))
  {
    hide Inv, View, Follows, HasOpen, Leaves, AsRequested, Returned;
    FirstStays(o);
    SecondStays(o);
    OpenedAs(BeforeFull(o), ID_FULL, 0, o.second.ks[0], o.c.fdFull, o.c.full);
  }

  lemma MutexEnds(o: Opening)
    requires Proceeds(o)
    ensures EndsAs(o, Q.Mutex, ID_MUTEX, 1, BeforeMutex(o))
  {
    hide Inv, View, Follows, HasOpen, Leaves, AsRequested, Returned;
    FirstStays(o);
    OpenedAs(BeforeMutex(o), ID_MUTEX, 1, o.end, o.c.fdMutex, o.c.mutex);
  }

  /** Every open finds its id unused, or its semaphore as that open would have made it. */
  ghost predicate IdsFit(o: Opening)
    requires |o.first.ks| == |o.first.es| + 1 && |o.second.ks| == |o.second.es| + 1
  {
    && AsRequested(o.k, ID_EMPTY, Q.CAPACITY)
    && AsRequested(BeforeFull(o), ID_FULL, 0)
    && AsRequested(BeforeMutex(o), ID_MUTEX, 1)
  }

  /** Whatever the rest of the machine does between the calls, the caller ends up with three different semaphores; and
      they make a queue in its initial state if and only if the ids fit. */
  lemma QueueOpens(o: Opening, slots: seq<Q.Msg>)
    requires Proceeds(o)
    ensures o.end.running == o.k.running && HasQueue(o.end, o.c, o.k.running) && Present(o.end, o.c)
    ensures Seen(Fresh(o.end, slots), o.c) == Q.Opened(slots) <==> IdsFit(o)
    ensures IdsFit(o) && Q.CAPACITY <= |slots| ==> SysInv(Fresh(o.end, slots), o.c)
  {
    hide Inv, View, AsRequested, HasOpen, Q.Inv, Proceeds;
    assert |o.first.ks| == |o.first.es| + 1 && |o.second.ks| == |o.second.es| + 1 by { Started(o); }
    assert Inv(o.end) && o.end.running == o.k.running by { FirstStays(o); }
    EmptyEnds(o);
    FullEnds(o);
    MutexEnds(o);
    if Q.CAPACITY <= |slots| { Q.OpenedInv(slots); }
  }

  lemma CallsParts(o: Opening)
    requires Calls(o)
    ensures |o.first.ks| == |o.first.es| + 1 && |o.second.ks| == |o.second.es| + 1
    ensures Inv(o.k) && Meanwhile(o.first, o.k.running) && Meanwhile(o.second, o.k.running)
    ensures Follows(o.k, SemOpenCall(ID_EMPTY, Q.CAPACITY), o.first.ks[0])
    ensures Follows(BeforeFull(o), SemOpenCall(ID_FULL, 0), o.second.ks[0])
    ensures Follows(BeforeMutex(o), SemOpenCall(ID_MUTEX, 1), o.end)
    ensures BeforeFull(o).running in BeforeFull(o).procs && BeforeMutex(o).running in BeforeMutex(o).procs
  {
    hide Inv, Step;
  }

  lemma Started(o: Opening)
    requires Proceeds(o)
    ensures Inv(o.k) && Meanwhile(o.first, o.k.running) && Meanwhile(o.second, o.k.running)
    ensures Follows(o.k, SemOpenCall(ID_EMPTY, Q.CAPACITY), o.first.ks[0])
    ensures Follows(BeforeFull(o), SemOpenCall(ID_FULL, 0), o.second.ks[0])
    ensures Follows(BeforeMutex(o), SemOpenCall(ID_MUTEX, 1), o.end)
  {
    hide Inv, Follows;
    CallsParts(o);
  }

  // ---- when the ids fit

  ghost predicate NoOpenOf(b: Between, id: int) {
    forall i :: 0 <= i < |b.es| ==> !(b.es[i].SemOpenCall? && b.es[i].id == id)
  }

  lemma {:induction false} UnusedMeanwhile(b: Between, id: int)
    requires Run(b.ks, b.es) && Inv(b.ks[0]) && NoOpenOf(b, id) && Unused(b.ks[0], id)
    ensures Unused(b.ks[|b.es|], id)
    decreases |b.es|
  {
    hide Inv, Step, Unused, Follows;
    RunInv(b.ks, b.es);
    if b.es != [] {
      var n := |b.es| - 1;
      RunPrefix(b.ks, b.es);
      var c := Between(b.ks[..|b.es|], b.es[..n]);
      assert forall i :: 0 <= i < |c.es| ==> c.es[i] == b.es[i];
      UnusedMeanwhile(c, id);
      assert c.ks[n] == b.ks[n];
      UnusedStays(b.ks[n], b.es[n], b.ks[n + 1], id);
    }
  }

  /** The intended use: nobody has used the three ids, and nobody else opens the later ones meanwhile. */
  lemma UnusedIdsFit(o: Opening)
    requires Proceeds(o) && Unused(o.k, ID_EMPTY) && Unused(o.k, ID_FULL) && Unused(o.k, ID_MUTEX)
    requires NoOpenOf(o.first, ID_FULL) && NoOpenOf(o.first, ID_MUTEX) && NoOpenOf(o.second, ID_MUTEX)
    ensures IdsFit(o)
  {
    hide Inv, Step, Follows, HasOpen, Leaves;
    Started(o);
    StepInv(o.k, SemOpenCall(ID_EMPTY, Q.CAPACITY), o.first.ks[0]);
    UnusedStays(o.k, SemOpenCall(ID_EMPTY, Q.CAPACITY), o.first.ks[0], ID_FULL);
    UnusedStays(o.k, SemOpenCall(ID_EMPTY, Q.CAPACITY), o.first.ks[0], ID_MUTEX);
    UnusedMeanwhile(o.first, ID_FULL);
    UnusedMeanwhile(o.first, ID_MUTEX);
    RunInv(o.first.ks, o.first.es);
    StepInv(BeforeFull(o), SemOpenCall(ID_FULL, 0), o.second.ks[0]);
    UnusedStays(BeforeFull(o), SemOpenCall(ID_FULL, 0), o.second.ks[0], ID_MUTEX);
    UnusedMeanwhile(o.second, ID_MUTEX);
  }

  /** One open that succeeds. */
  lemma OpenOnce(k: K, id: int, count: int) returns (k1: K, fd: int, s: Ref)
    requires Inv(k) && k.running in k.procs && CanOpenSem(k, id, count)
    ensures OpensAs(k, id, count, k1, k.running, fd, s)
    ensures Inv(k1) && k1.running == k.running && k1.running in k1.procs
    ensures k1.freeDescs == k.freeDescs - 1 && |k1.freeSems| >= |k.freeSems| - 1
  {
    hide Inv, Step, HasOpen, Follows;
    StepQuiet(k, SemOpenCall(id, count));
    k1 := Step(k, SemOpenCall(id, count)).value;
    OpenResult(k, id, count, k1);
    OpenPools(k, id, count, k1);
    fd := k1.procs[k.running].ret;
    s :| HasOpen(k1, k.running, fd, s);
  }

  /** An open of an id in use, whose semaphore is not what the open asks for, leads to that semaphore as it is. */
  lemma OpensOther(k: K, id: int, count: int, k1: K, s: Ref, t: Ref)
    requires Inv(k) && Follows(k, SemOpenCall(id, count), k1)
    requires s in k.sems && k.sems[s].id == id && View(k, s) != H.Sem(count, [])
    requires t in k1.sems && k1.sems[t].id == id
    ensures View(k1, t) == View(k, s)
  {
    hide Inv, Step, View;
    FollowsStep(k, SemOpenCall(id, count), k1);
    OpenCount(k, id, count, k1, t);
    assert !AsRequested(k, id, count);
    if t !in k.sems { SemBorn(k, SemOpenCall(id, count), t); }
    StepIds(k, SemOpenCall(id, count), k1);
    InvParts(k);
    OneId(k, s, t);
  }

  lemma OnlyFirstUsed(k: K, k1: K, k2: K)
    requires Follows(Boot(), SemOpenCall(ID_EMPTY, 0), k) && Follows(k, SemOpenCall(ID_EMPTY, Q.CAPACITY), k1)
    requires Follows(k1, SemOpenCall(ID_FULL, 0), k2)
    ensures Unused(k1, ID_FULL) && Unused(k2, ID_MUTEX)
  {
    hide Inv, Step, Follows;
    BootInv();
    StepInv(Boot(), SemOpenCall(ID_EMPTY, 0), k);
    StepInv(k, SemOpenCall(ID_EMPTY, Q.CAPACITY), k1);
    forall id | id == ID_FULL || id == ID_MUTEX ensures Unused(k1, id) {
      UnusedStays(Boot(), SemOpenCall(ID_EMPTY, 0), k, id);
      UnusedStays(k, SemOpenCall(ID_EMPTY, Q.CAPACITY), k1, id);
    }
    UnusedStays(k1, SemOpenCall(ID_FULL, 0), k2, ID_MUTEX);
  }

  /** Somebody has opened the first id with count 0: then an undisturbed initialisation succeeds call by call, and
      gives an empty queue without a permit to push. */
  lemma TakenIdExample(slots: seq<Q.Msg>) returns (o: Opening)
    ensures After(Boot(), [SemOpenCall(ID_EMPTY, 0)]) == Ok(o.k) && Proceeds(o)
    ensures Present(o.end, o.c)
    ensures Seen(Fresh(o.end, slots), o.c) == Q.Opened(slots).(empty := H.Sem(0, []))
  {
    hide Inv, Step, HasOpen, Follows, View;
    BootInv();
    var b := Boot();
    var k, fd, s := OpenOnce(b, ID_EMPTY, 0);
    OpenedAs(b, ID_EMPTY, 0, k, fd, s);
    assert AsRequested(b, ID_EMPTY, 0);
    AfterAppend(b, [], SemOpenCall(ID_EMPTY, 0));
    assert [] + [SemOpenCall(ID_EMPTY, 0)] == [SemOpenCall(ID_EMPTY, 0)];
    assert Step(b, SemOpenCall(ID_EMPTY, 0)) == Ok(k) by { FollowsStep(b, SemOpenCall(ID_EMPTY, 0), k); }
    var k1, e, sE := OpenOnce(k, ID_EMPTY, Q.CAPACITY);
    var k2, f, sF := OpenOnce(k1, ID_FULL, 0);
    var k3, m, sM := OpenOnce(k2, ID_MUTEX, 1);
    o := Opening(k, Between([k1], []), Between([k2], []), k3, Setup(e, f, m, sE, sF, sM));
    OpenedAs(k, ID_EMPTY, Q.CAPACITY, k1, e, sE);
    OpensOther(k, ID_EMPTY, Q.CAPACITY, k1, s, sE);
    OnlyFirstUsed(k, k1, k2);
    QueueOpens(o, slots);
    FirstStays(o);
    FullEnds(o);
    MutexEnds(o);
  }

  /** The steps taken between the calls are the ones of `o`. */
  ghost predicate Describes(o: Opening, k: K, first: seq<Event>, second: seq<Event>) {
    o.k == k && o.first.es == first && o.second.es == second && Calls(o)
  }

  /** The numbers the queue object holds are what the calls returned; and what they stand for in the end, if the calls
      succeeded and nobody interfered. */
  ghost predicate QueueAt(o: Opening, fdEmpty: int, fdFull: int, fdMutex: int, slots: seq<Q.Msg>)
    requires Calls(o)
  {
    && fdEmpty == Returned(o.first.ks[0]) && fdFull == Returned(o.second.ks[0]) && fdMutex == Returned(o.end)
    && (Proceeds(o) ==>
          && fdEmpty == o.c.fdEmpty && fdFull == o.c.fdFull && fdMutex == o.c.fdMutex
          && HasQueue(o.end, o.c, o.end.running) && Present(o.end, o.c)
          && (Seen(Fresh(o.end, slots), o.c) == Q.Opened(slots) <==> IdsFit(o))
          && (IdsFit(o) && Q.CAPACITY <= |slots| ==> SysInv(Fresh(o.end, slots), o.c)))
  }

  lemma QueueOpened(o: Opening, k: K, first: seq<Event>, second: seq<Event>, slots: seq<Q.Msg>)
    requires Describes(o, k, first, second)
    ensures QueueAt(o, Returned(o.first.ks[0]), Returned(o.second.ks[0]), Returned(o.end), slots)
  {
    hide HasQueue, Present, SysInv, Seen, Calls, Leaves, HasOpen, Inv, Follows;
    CallsParts(o);
    if Proceeds(o) { QueueOpens(o, slots); }
  }

  class FixedSizeMessageQueue {
    var messages: array<Q.Msg>
    var size: int
    var sizeMax: int
    var frontIdx: int
    var semFull: int
    var semEmpty: int
    var mutex: int

    ghost predicate Valid()
      reads this
    {
      messages.Length == sizeMax && 0 <= frontIdx < sizeMax && 0 <= size <= sizeMax
    }

    /** The messages in the queue, oldest first. */
    ghost function Contents(): seq<Q.Msg>
      requires Valid()
      reads this, messages
    {
      Q.Window(messages[..], frontIdx, size)
    }

    /** The object holds the ring that the protocol state `d` describes. */
    ghost predicate Holds(d: Q.Data)
      reads this, messages
    {
      d.slots == messages[..] && d.front == frontIdx && d.size == size
    }

    /** The initialisation, on a kernel on which the rest of the machine may do anything between the three calls. */
    constructor Init(kernel: Kernel, max: int, first: seq<Event>, second: seq<Event>, ghost o: Opening)
      requires max >= 0 && kernel.Valid() && Describes(o, kernel.State(), first, second)
      modifies kernel
      ensures fresh(messages) && messages.Length == sizeMax == max && size == 0 && frontIdx == 0
      ensures max > 0 ==> Valid() && Contents() == []
      ensures kernel.Valid() && kernel.State() == o.end
      ensures QueueAt(o, semEmpty, semFull, mutex, messages[..])
    {
      hide Inv, Describes, QueueAt, Calls;
      messages := new Q.Msg[max];
      size := 0;
      frontIdx := 0;
      sizeMax := max;
      ghost var k := kernel.State();
      new;
      semEmpty, semFull, mutex := OpenSemaphores(kernel, first, second, o);
      QueueOpened(o, k, first, second, messages[..]);
    }

    /** The three system calls of the initialisation. */
    static method OpenSemaphores(kernel: Kernel, first: seq<Event>, second: seq<Event>, ghost o: Opening)
      returns (e: int, f: int, m: int)
      requires kernel.Valid() && Describes(o, kernel.State(), first, second)
      modifies kernel
      ensures kernel.Valid() && kernel.State() == o.end
      ensures e == Returned(o.first.ks[0]) && f == Returned(o.second.ks[0]) && m == Returned(o.end)
    {
      hide Inv, Step, Calls, Follows, Run;
      CallsParts(o);
      e := Open(kernel, ID_EMPTY, Q.CAPACITY, o.first.ks[0]);
      Elsewhere(kernel, first, o.first.ks);
      f := Open(kernel, ID_FULL, 0, o.second.ks[0]);
      Elsewhere(kernel, second, o.second.ks);
      m := Open(kernel, ID_MUTEX, 1, o.end);
    }

    static method Open(kernel: Kernel, id: int, count: int, ghost k1: K) returns (fd: int)
      requires kernel.Valid() && Follows(kernel.State(), SemOpenCall(id, count), k1)
      modifies kernel
      ensures kernel.Valid() && kernel.State() == k1 && fd == Returned(k1)
    {
      hide Inv, Step;
      kernel.Handle(SemOpenCall(id, count));
      fd := kernel.procs[kernel.running].ret;
    }

    /** The rest of the machine takes its steps. */
    static method Elsewhere(kernel: Kernel, es: seq<Event>, ghost ks: seq<K>)
      requires kernel.Valid() && Run(ks, es) && kernel.State() == ks[0] && ks[|es|].running in ks[|es|].procs
      modifies kernel
      ensures kernel.Valid() && kernel.State() == ks[|es|]
    {
      hide Inv, Step;
      RunInv(ks, es);
      for i := 0 to |es|
        invariant kernel.State() == ks[i]
      {
        assert Follows(ks[i], es[i], ks[i + 1]) && Inv(ks[i]);
        kernel.Handle(es[i]);
      }
      assert Inv(ks[|es|]);
    }

    // The statements of the critical sections, one by one: other processes may run between any two of them.

    method TailIdx() returns (tailIdx: int)
      requires sizeMax > 0
      ensures tailIdx == (frontIdx + size) % sizeMax
    {
      tailIdx := (frontIdx + size) % sizeMax;
    }

    method Store(tailIdx: nat, message: Q.Msg)
      requires tailIdx < messages.Length
      modifies messages
      ensures messages[..] == old(messages[..])[tailIdx := message]
    {
      messages[tailIdx] := message;
    }

    method Grow()
      modifies this`size
      ensures size == old(size) + 1
    {
      size := size + 1;
    }

    method Load() returns (messageOut: Q.Msg)
      requires 0 <= frontIdx < messages.Length
      ensures messageOut == messages[frontIdx]
    {
      messageOut := messages[frontIdx];
    }

    method MoveFront()
      requires sizeMax > 0
      modifies this`frontIdx
      ensures frontIdx == (old(frontIdx) + 1) % sizeMax
    {
      frontIdx := (frontIdx + 1) % sizeMax;
    }

    method Shrink()
      modifies this`size
      ensures size == old(size) - 1
    {
      size := size - 1;
    }

    /** Push-back's critical section is three instructions of the protocol, and appends the message. */
    method PushCritical(message: Q.Msg, ghost d: Q.Data, ghost p: Q.Pid)
      requires Valid() && size < sizeMax && Holds(d) && p in d.pc && d.pc[p] == Q.PushTail(message)
      modifies this`size, messages
      ensures Valid() && Contents() == old(Contents()) + [message]
      ensures var d1 := Q.Advance(d, p); var d2 := Q.Advance(d1, p); Holds(Q.Advance(d2, p))
    {
      ghost var was := messages[..];
      var tailIdx := TailIdx();
      Q.WindowFrame(was, frontIdx, size, size, message);
      Q.WindowLast(was[tailIdx := message], frontIdx, size);
      Store(tailIdx, message);
      Grow();
    }

    /** Pop-front's critical section returns the oldest message and removes it. */
    method PopCritical(ghost d: Q.Data, ghost p: Q.Pid) returns (messageOut: Q.Msg)
      requires Valid() && size > 0 && Holds(d) && p in d.pc && d.pc[p] == Q.PopLoad
      modifies this`size, this`frontIdx
      ensures Valid() && old(Contents()) == [messageOut] + Contents()
      ensures var d1 := Q.Advance(d, p); var d2 := Q.Advance(d1, p); var d3 := Q.Advance(d2, p);
              Holds(d3) && d3.pc[p] == Q.PopPostMutex(messageOut)
    {
      Q.WindowHead(messages[..], frontIdx, size);
      messageOut := Load();
      MoveFront();
      Shrink();
    }
  }
}
