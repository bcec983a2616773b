/** The kernel as the program has it: global variables that the handlers update one after the other, with the scan
    loops written out. Each method is proved to do exactly what its function in `KernelState` says. */
module Kernels {
  import opened Outcomes
  import opened Seqs
  import opened KernelState
  import opened KernelInvariant
  import opened KernelMoves
  import opened KernelSemMoves
  import opened KernelFamilyMoves
  import opened KernelSteps
  import opened KernelExit
  import opened KernelChildren
  import opened KernelFrames

  class Kernel {
    var running: Pid
    var lastPid: Pid
    var now: int
    var ready: seq<Pid>
    var waiting: seq<Pid>
    var zombies: seq<Pid>
    var timers: seq<Timer>
    var procs: map<Pid, Proc>
    var semList: seq<Ref>
    var sems: map<Ref, Semaphore>
    var descs: map<Ref, SemDesc>
    var ptrs: map<Ref, Ref>
    var nextRef: Ref
    var freePcbs: seq<seq<Ref>>
    var freePcbPtrs: int
    var freeTimers: int
    var freeSems: seq<seq<Ref>>
    var freeDescs: int
    var freePtrs: int

    function State(): K
      reads this
    {
      K(running, lastPid, now, ready, waiting, zombies, timers, procs, semList, sems, descs, ptrs, nextRef,
        freePcbs, freePcbPtrs, freeTimers, freeSems, freeDescs, freePtrs)
    }

    ghost predicate Valid()
      reads this
    {
      Inv(State()) && running in procs
    }

    constructor Start()
      ensures State() == Boot() && Valid()
    {
      running, lastPid, now := INIT, 1, 0;
      ready, waiting, zombies, timers := [], [], [], [];
      procs := map[INIT := Proc(Running, NULL, [], false, 0, [], 0, 0, 0, 0, 0)];
      semList, sems, descs, ptrs, nextRef := [], map[], map[], map[], 0;
      freePcbs := seq(MAX_NUM_PROCESSES - 1, _ => []);
      freePcbPtrs, freeTimers := MAX_NUM_PROCESSES, MAX_NUM_PROCESSES;
      freeSems := seq(MAX_NUM_SEMAPHORES, _ => []);
      freeDescs, freePtrs := MAX_NUM_PROCESSES, MAX_NUM_PROCESSES;
      new;
      BootInv();
    }

    // ---- list scans

    method SemDescriptorListByFd(l: seq<Ref>, fd: int) returns (r: Option<Ref>)
      requires AllIn(l, descs)
      ensures r == ByFd(descs, l, fd)
    {
      var aux := 0;
      while aux < |l|
        invariant aux <= |l| && AllIn(l[aux..], descs) && ByFd(descs, l[aux..], fd) == ByFd(descs, l, fd)
      {
        if descs[l[aux]].fd == fd {
          return Some(l[aux]);
        }
        assert l[aux..][1..] == l[aux + 1..];
        aux := aux + 1;
      }
      return None;
    }

    method SemaphoreListById(l: seq<Ref>, id: int) returns (r: Option<Ref>)
      requires AllIn(l, sems)
      ensures r == ById(sems, l, id)
    {
      var aux := 0;
      while aux < |l|
        invariant aux <= |l| && AllIn(l[aux..], sems) && ById(sems, l[aux..], id) == ById(sems, l, id)
      {
        if sems[l[aux]].id == id {
          return Some(l[aux]);
        }
        assert l[aux..][1..] == l[aux + 1..];
        aux := aux + 1;
      }
      return None;
    }

    /** The child wait stops at: the first match, or else the last one scanned. */
    method ScanFor(cs: seq<Pid>, pid: int) returns (c: Pid)
      requires cs != [] && forall i :: 0 <= i < |cs| ==> cs[i] in procs
      ensures c == ScanChildren(State(), cs, pid)
      ensures exists i :: 0 <= i < |cs| && cs[i] == c && (i == |cs| - 1 || Matches(State(), c, pid))
                          && forall j :: 0 <= j < i ==> !Matches(State(), cs[j], pid)
    {
      var aux := 0;
      c := cs[0];
      while aux < |cs|
        invariant aux <= |cs|
        invariant aux < |cs| ==> ScanChildren(State(), cs[aux..], pid) == ScanChildren(State(), cs, pid)
        invariant aux == |cs| ==> c == ScanChildren(State(), cs, pid)
      {
        c := cs[aux];
        if pid == 0 && procs[c].status == Zombie {
          break;
        }
        if pid != 0 && c == pid {
          break;
        }
        assert cs[aux..][1..] == cs[aux + 1..];
        aux := aux + 1;
      }
      ghost var i := ScanStops(State(), cs, pid);
    }

    // ---- entry and return

    method Trap(call: int, args: seq<int>)
      requires Valid()
      modifies this
      ensures Valid() && Enter(old(State()), call, args) == Ok(State())
    {
      EnterKeeps(State(), call, args);
      var me := procs[running].(call := call);
      if |args| > 0 { me := me.(arg0 := args[0]); }
      if |args| > 1 { me := me.(arg1 := args[1]); }
      procs := procs[running := me];
    }

    method SetReturn(v: int)
      requires running in procs
      modifies `procs
      ensures Return(old(State()), v) == Ok(State())
    {
      procs := procs[running := procs[running].(ret := v)];
    }

    // ---- semaphores

    /** `List_insert(&waiting_list, waiting_list.last, running)`, with the status. */
    method BlockRunning()
      requires Park(State()).Ok?
      modifies `waiting, `procs
      ensures Park(old(State())) == Ok(State().(running := NULL)) && procs.Keys == old(procs.Keys)
    {
      waiting := waiting + [running];
      procs := procs[running := procs[running].(status := Waiting)];
    }

    /** `running = List_detach(&ready_list, ready_list.first)`. */
    method RunFirstReady()
      requires ready != []
      modifies `running, `ready
      ensures Dispatch(old(State()).(running := NULL)) == Ok(State()) && running == old(ready[0])
    {
      running, ready := ready[0], ready[1..];
    }

    method InternalSemWait()
      requires Valid() && procs[running].call == CALL_SEMWAIT && SemWait(State()).Ok?
      modifies this
      ensures Valid() && SemWait(old(State())) == Ok(State())
    {
      hide Inv, SemWait, Park, Dispatch, Return;
      ghost var k := State();
      SemWaitKeeps(k);
      FindsDescriptor(k);
      var found := SemDescriptorListByFd(procs[running].semDescs, procs[running].arg0);
      assert Lookup(k, procs[running].arg0) == Ok(found);
      hide Lookup, ByFd, AllIn;
      if found == None {
        SemWaitMissing(k);
        SetReturn(DSOS_ESEMWAIT);
        return;
      }
      SemWaitShape(k, found.value);
      var desc := descs[found.value];
      if desc.ptr == NULL || desc.sem == NULL {
        assert false;
      }
      var s := sems[desc.sem].(count := sems[desc.sem].count - 1);
      if s.count < 0 {
        s := s.(descs := Without(s.descs, desc.ptr), waitingDescs := s.waitingDescs + [desc.ptr]);
        sems := sems[desc.sem := s];
        assert State() == BlockedSem(k, found.value);
        BlockRunning();
        RunFirstReady();
      } else {
        sems := sems[desc.sem := s];
      }
      SetReturn(0);
    }

    method InternalSemPost()
      requires Valid()
      modifies this
      ensures Valid() && SemPost(old(State())) == Ok(State())
    {
      hide Inv, SemPost, HandOff, Yield, Return;
      ghost var k := State();
      SemPostKeeps(k);
      FindsDescriptor(k);
      var found := SemDescriptorListByFd(procs[running].semDescs, procs[running].arg0);
      assert Lookup(k, procs[running].arg0) == Ok(found);
      hide Lookup, ByFd, AllIn;
      if found == None {
        SemPostMissing(k);
        SetReturn(DSOS_ESEMPOST);
        return;
      }
      SemPostShape(k, found.value);
      var ref := descs[found.value].sem;
      if ref == NULL {
        assert false;
      }
      var s := sems[ref].(count := sems[ref].count + 1);
      sems := sems[ref := s];
      if s.count <= 0 {
        YieldRunning();
        HandOver(ref);
      }
      SetReturn(0);
    }

    /** `List_insert(&ready_list, ready_list.last, running)`, with the status. */
    method YieldRunning()
      requires Yield(State()).Ok?
      modifies `ready, `procs
      ensures Yield(old(State())) == Ok(State().(running := NULL)) && procs.Keys == old(procs.Keys)
    {
      ready := ready + [running];
      procs := procs[running := procs[running].(status := Ready)];
    }

    /** The first process blocked on the semaphore leaves both waiting lists and runs. */
    method HandOver(ref: Ref)
      requires ref in sems && HandOff(State().(running := NULL), ref).Ok?
      modifies `sems, `waiting, `running
      ensures HandOff(old(State()).(running := NULL), ref) == Ok(State())
    {
      var s := sems[ref];
      var first := s.waitingDescs[0];
      sems := sems[ref := s.(descs := s.descs + [first], waitingDescs := s.waitingDescs[1..])];
      var woken := descs[ptrs[first]].pid;
      waiting := Without(waiting, woken);
      running := woken;
    }

    method InternalSemOpen()
      requires Valid()
      modifies this
      ensures Valid() && SemOpen(old(State())) == Ok(State())
    {
      hide Inv, SemOpen, OpenDesc, Return;
      ghost var k := State();
      SemOpenKeeps(k);
      SemOpenShape(k);
      var id, count := procs[running].arg0, procs[running].arg1;
      if count < 0 || id < 0 {
        SetReturn(DSOS_ESEMOPEN);
        return;
      }
      var found := SemaphoreListById(semList, id);
      hide ById, AllIn;
      var ref;
      if found == None {
        if freeSems == [] {
          SetReturn(DSOS_ESEMOPEN);
          return;
        }
        ref := SemaphoreAlloc(id, count);
      } else {
        ref := found.value;
      }
      OpenDescriptor(ref);
    }

    /** The new semaphore keeps whatever `waiting_descriptors` its block held. */
    method SemaphoreAlloc(id: int, count: int) returns (ref: Ref)
      requires freeSems != []
      modifies `nextRef, `sems, `freeSems, `semList
      ensures ref == old(nextRef) && State() == AllocSem(old(State()), id, count)
    {
      ghost var want := AllocSem(State(), id, count);
      ref := nextRef;
      nextRef := nextRef + 1;
      sems := sems[ref := Semaphore(id, count, [], freeSems[0])];
      freeSems := freeSems[1..];
      semList := semList + [ref];
      assert sems == want.sems && semList == want.semList && freeSems == want.freeSems;
    }

    /** Both descriptor nodes, one after the other; the second allocation cannot fail when the first has not. */
    method OpenDescriptor(ref: Ref)
      requires Valid() && ref in sems
      modifies this
      ensures OpenDesc(old(State()), ref) == Ok(State())
    {
      hide Inv, SchedInv, ReasonInv, TimerInv, DescInv, FamilyInv, PoolInv, OpenDesc;
      ghost var k := State();
      OpenDescKeeps(k, ref);
      InvParts(k);
      EqualPools(k);
      if freeDescs <= 0 {
        NoFreeDesc(k, ref);
        SetReturn(DSOS_ESEMOPEN);
        return;
      }
      var fd := procs[running].lastSemFd;
      var d := SemDescriptorAlloc(ref);
      if freePtrs <= 0 {
        assert false;
      }
      SemDescriptorPtrAlloc(d, ref);
      BothHalves(k, ref);
      SetReturn(fd);
    }

    /** The descriptor joins the caller's list. */
    method SemDescriptorAlloc(ref: Ref) returns (d: Ref)
      requires running in procs
      modifies `nextRef, `freeDescs, `descs, `procs
      ensures d == old(nextRef) && State() == HalfOpened(old(State()), ref)
    {
      ghost var want := HalfOpened(State(), ref);
      d := nextRef;
      nextRef, freeDescs := nextRef + 1, freeDescs - 1;
      descs := descs[d := SemDesc(running, ref, procs[running].lastSemFd, NULL)];
      procs := procs[running := procs[running].(semDescs := procs[running].semDescs + [d],
                                                lastSemFd := procs[running].lastSemFd + 1)];
      assert procs == want.procs && descs == want.descs;
    }

    /** Its companion node joins the semaphore's list, and the two are linked. */
    method SemDescriptorPtrAlloc(d: Ref, ref: Ref)
      requires d in descs && ref in sems
      modifies `nextRef, `freePtrs, `ptrs, `descs, `sems
      ensures State() == Paired(old(State()), d, ref)
    {
      ghost var want := Paired(State(), d, ref);
      var q := nextRef;
      nextRef, freePtrs := nextRef + 1, freePtrs - 1;
      ptrs := ptrs[q := d];
      descs := descs[d := descs[d].(ptr := q)];
      sems := sems[ref := sems[ref].(descs := sems[ref].descs + [q])];
      assert sems == want.sems && ptrs == want.ptrs && descs == want.descs;
    }

    method InternalSemClose()
      requires Valid()
      modifies this
      ensures Valid() && SemClose(old(State())) == Ok(State())
    {
      hide Inv, SemClose, FreeSem, FreeDesc;
      ghost var k := State();
      SemCloseKeeps(k);
      FindsDescriptor(k);
      var fd := procs[running].arg0;
      var found := SemDescriptorListByFd(procs[running].semDescs, fd);
      assert Lookup(k, fd) == Ok(found);
      hide Lookup, ByFd, AllIn;
      if fd < 0 || found == None {
        if found == None { SemCloseMissing(k); } else { CloseFinds(k, found.value); }
        SetReturn(DSOS_ESEMCLOSE);
        return;
      }
      var d := found.value;
      CloseFinds(k, d);
      SemCloseSteps(k, d);
      var desc := descs[d];
      procs := procs[running := procs[running].(semDescs := Without(procs[running].semDescs, d))];
      if desc.sem == NULL {
        assert false;
      }
      var s := sems[desc.sem];
      s := s.(descs := Without(s.descs, desc.ptr));
      sems := sems[desc.sem := s];
      assert State() == Unhooked(k, d);
      if s.descs == [] && s.waitingDescs == [] {
        SemaphoreFree(desc.sem);
      }
      SemDescriptorsFree(d, desc.ptr);
    }

    /** The semaphore leaves the global list and its block goes back to the pool. */
    method SemaphoreFree(ref: Ref)
      requires ref in sems && FreeSem(State(), ref).Ok?
      modifies `sems, `semList, `freeSems
      ensures FreeSem(old(State()), ref) == Ok(State())
    {
      semList := Without(semList, ref);
      freeSems := [sems[ref].waitingDescs] + freeSems;
      sems := sems - {ref};
    }

    /** Both nodes go back to their pools, which refuse blocks that are not handed out. */
    method SemDescriptorsFree(d: Ref, q: Ref)
      requires running in procs
      modifies `descs, `ptrs, `freeDescs, `freePtrs, `procs
      ensures FreeDesc(old(State()), d, q) == Ok(State())
    {
      hide Return;
      if d !in descs {
        SetReturn(DSOS_ESEMCLOSE);
        return;
      }
      descs, freeDescs := descs - {d}, freeDescs + 1;
      SemDescriptorPtrFree(q);
    }

    method SemDescriptorPtrFree(q: Ref)
      requires running in procs
      modifies `ptrs, `freePtrs, `procs
      ensures Ok(State()) ==
              if q !in old(ptrs) then Return(old(State()), DSOS_ESEMCLOSE)
              else Return(old(State()).(ptrs := old(ptrs) - {q}, freePtrs := old(freePtrs) + 1), 0)
    {
      hide Return;
      if q !in ptrs {
        SetReturn(DSOS_ESEMCLOSE);
        return;
      }
      ptrs, freePtrs := ptrs - {q}, freePtrs + 1;
      SetReturn(0);
    }

    // ---- time

    /** Sorted insertion: the scan stops at the first timer that fires later. */
    method TimerListAdd(t: Timer)
      requires freeTimers > 0
      modifies `timers, `freeTimers
      ensures timers == AddTimer(old(timers), t) && freeTimers == old(freeTimers) - 1
    {
      var aux := 0;
      while aux < |timers|
        invariant aux <= |timers| && AddTimer(timers, t) == timers[..aux] + AddTimer(timers[aux..], t)
      {
        if t.awake < timers[aux].awake {
          break;
        }
        assert timers[aux..][1..] == timers[aux + 1..];
        assert timers[..aux] + [timers[aux]] == timers[..aux + 1];
        aux := aux + 1;
      }
      timers := timers[..aux] + [t] + timers[aux..];
      freeTimers := freeTimers - 1;
    }

    /** Sleep always gets its timer. When nobody is ready to take over, the processor is left without a process. */
    method InternalSleep()
      requires Valid() && procs[running].call == CALL_SLEEP
      modifies this
      ensures Inv(State()) && Sleep(old(State())) == Ok(State())
      ensures if old(ready) == [] then running == NULL else running == old(ready)[0] && Valid()
    {
      hide Inv, Sleep, Park, Dispatch;
      ghost var k := State();
      SleepKeeps(k);
      SleepShape(k);
      if procs[running].hasTimer || freeTimers <= 0 {
        assert false;
      }
      var wakeTime := now + procs[running].arg0;
      TimerListAdd(Timer(wakeTime, running));
      assert State() == Asleep(k);
      BlockRunning();
      if ready != [] {
        RunFirstReady();
      } else {
        running := NULL;
      }
    }

    /** Wakes whoever's time has come, then gives the processor to the head of the ready queue. */
    method InternalSchedule()
      requires Valid()
      modifies this
      ensures Valid() && Schedule(old(State())) == Ok(State())
    {
      hide Inv, WakeFirst, Yield, Dispatch, MarkRunning;
      ghost var k := State();
      ScheduleKeeps(k);
      var at := 0;
      while timers != [] && timers[0].awake <= now
        invariant Inv(State()) && at <= |ready| && WakeElapsed(State(), at) == WakeElapsed(k, 0)
        invariant running == old(running) && procs.Keys == old(procs.Keys)
        decreases |timers|
      {
        WakeStep(State(), at);
        WakeFirstTimer(at);
        at := at + 1;
      }
      hide WakeElapsed;
      assert WakeElapsed(k, 0) == Ok(State());
      if ready != [] {
        Rotate();
      }
    }

    lemma WakeStep(k: K, at: nat)
      requires Inv(k) && at <= |k.ready| && Elapsed(k)
      ensures WakeFirst(k, at).Ok? && Inv(WakeFirst(k, at).value)
      ensures WakeElapsed(k, at) == WakeElapsed(WakeFirst(k, at).value, at + 1)
    {
      hide Inv;
      WakeMove(k, at);
    }

    /** The owner of the first timer leaves the waiting list for place `at` of the ready queue. */
    method WakeFirstTimer(at: nat)
      requires Elapsed(State()) && WakeFirst(State(), at).Ok?
      modifies this
      ensures WakeFirst(old(State()), at) == Ok(State())
      ensures running == old(running) && procs.Keys == old(procs.Keys) && |ready| == old(|ready|) + 1
      ensures timers == old(timers)[1..]
    {
      hide Without;
      ghost var want := WakeFirst(State(), at).value;
      var p := timers[0].pid;
      waiting := Without(waiting, p);
      procs := procs[p := procs[p].(status := Ready, hasTimer := false)];
      ready := ready[..at] + [p] + ready[at..];
      timers, freeTimers := timers[1..], freeTimers + 1;
      assert procs == want.procs && waiting == want.waiting && ready == want.ready && timers == want.timers;
    }

    /** The running process goes to the end of the queue and the head runs. The queue is not empty, so taking its
        head after the insertion takes the same process as before it. */
    method Rotate()
      requires Inv(State()) && running in procs && ready != []
      modifies this
      ensures Yield(old(State())).Ok? && Dispatch(Yield(old(State())).value).Ok?
      ensures MarkRunning(Dispatch(Yield(old(State())).value).value) == Ok(State())
    {
      hide Inv;
      ghost var k := State();
      YieldMove(k);
      DispatchKeeps(Yield(k).value);
      YieldRunning();
      RunFirstReady();
      procs := procs[running := procs[running].(status := Running)];
    }

    method TimerInterrupt()
      requires Valid()
      modifies this
      ensures Valid() && Tick(old(State())) == Ok(State())
      ensures now == old(now) + 1
    {
      hide Inv, Schedule;
      ClockMove(State());
      ScheduleKeeps(State().(now := now + 1));
      ScheduleFrame(State().(now := now + 1), running);
      now := now + 1;
      InternalSchedule();
    }

    // ---- processes

    method InternalSpawn()
      requires Valid() && freePcbs != [] && freePcbPtrs > 0
      modifies this
      ensures Valid() && Spawn(old(State())) == Ok(State())
    {
      hide Inv;
      ghost var k := State();
      SpawnMove(k);
      var p := lastPid;
      lastPid := lastPid + 1;
      var child := Proc(Ready, running, [], false, 0, freePcbs[0], 0, 0, 0, 0, 0);
      freePcbs, freePcbPtrs := freePcbs[1..], freePcbPtrs - 1;
      ready := ready + [p];
      procs := procs[running := procs[running].(children := procs[running].children + [p], ret := p)];
      procs := procs[p := child];
      assert Ok(State()) == Spawn(k);
    }

    method InternalWait()
      requires Valid() && procs[running].call == CALL_WAIT && Wait(State()).Ok?
      modifies this
      ensures Valid() && Wait(old(State())) == Ok(State())
    {
      hide Inv, Wait, Reap, Park, Dispatch, Return;
      ghost var k := State();
      WaitKeeps(k);
      WaitShape(k);
      if procs[running].children == [] {
        SetReturn(DSOS_EWAIT);
        return;
      }
      var c := ScanFor(procs[running].children, procs[running].arg0);
      if procs[c].status == Zombie {
        ReapChild(c);
        return;
      }
      DispatchReady(Park(k).value);
      BlockRunning();
      RunFirstReady();
    }

    lemma DispatchReady(k: K)
      ensures Dispatch(k).Ok? ==> k.ready != []
    {
    }

    method ReapChild(c: Pid)
      requires running in procs && c in procs && c != running && Reap(State(), c).Ok?
      modifies `procs, `zombies, `freePcbs, `freePcbPtrs
      ensures Reap(old(State()), c) == Ok(State())
    {
      var me := procs[running];
      procs := procs[running := me.(children := Without(me.children, c), ret := c)];
      freePcbPtrs := freePcbPtrs + 1;
      zombies := Without(zombies, c);
      PcbFree(c);
    }

    /** The caller's children, one by one, go to the end of init's. */
    method ReparentChildren()
      requires running in procs && INIT in procs && (running == INIT ==> procs[INIT].children == [])
      modifies `procs
      ensures Reparent(old(State())) == Ok(State())
    {
      hide Reparent;
      ghost var before, mine, moved := procs, procs[running].children, [];
      while procs[running].children != []
        invariant procs.Keys == before.Keys
        invariant moved + procs[running].children == mine
        invariant running == INIT ==> mine == []
        invariant forall p :: p in procs && p != running && p != INIT ==> procs[p] == before[p]
        invariant procs[running] == before[running].(children := procs[running].children)
        invariant running != INIT ==> procs[INIT] == before[INIT].(children := before[INIT].children + moved)
        decreases |procs[running].children|
      {
        var c := MoveFirstChild();
        moved := moved + [c];
      }
      assert moved == mine;
      AllMoved(old(State()), procs);
    }

    method MoveFirstChild() returns (c: Pid)
      requires running in procs && INIT in procs && running != INIT && procs[running].children != []
      modifies `procs
      ensures c == old(procs[running].children)[0]
      ensures procs == old(procs[running := procs[running].(children := procs[running].children[1..])]
                                [INIT := procs[INIT].(children := procs[INIT].children + [c])])
    {
      c := procs[running].children[0];
      procs := procs[running := procs[running].(children := procs[running].children[1..])];
      procs := procs[INIT := procs[INIT].(children := procs[INIT].children + [c])];
    }

    /** The timers of process `p` are taken off the timer list. */
    method FreeTimersOf(p: Pid)
      modifies `timers, `freeTimers
      ensures timers == DropTimers(old(timers), p)
      ensures freeTimers == old(freeTimers) + |old(timers)| - |timers|
    {
      var kept, aux := [], 0;
      while aux < |timers|
        invariant aux <= |timers| && timers == old(timers)
        invariant kept + DropTimers(timers[aux..], p) == DropTimers(timers, p)
        invariant freeTimers == old(freeTimers) + aux - |kept|
      {
        assert timers[aux..][1..] == timers[aux + 1..];
        if timers[aux].pid == p {
          freeTimers := freeTimers + 1;
        } else {
          kept := kept + [timers[aux]];
        }
        aux := aux + 1;
      }
      timers := kept;
    }

    /** Exit of any process but init. The invariant survives it when the caller has left no child and no open
        semaphore behind. */
    method InternalExit()
      requires Valid() && running != INIT && Exit(State()).Ok?
      modifies this
      ensures Exit(old(State())) == Ok(State())
      ensures old(CleanExit(State())) ==> Valid()
      ensures old(CleanExit(State()) && procs[running].parent in procs && ParentAwaits(State(), running)) ==>
                running == old(procs[running].parent) && running in procs && procs[running].ret == old(running)
    {
      hide Inv, SchedInv, FamilyInv, Leave, Reparent;
      ghost var k := State();
      if CleanExit(k) {
        ExitKeeps(k);
        HandsPid(k);
      }
      InvParts(k);
      ParentFacts(k);
      procs := procs[running := procs[running].(exitValue := procs[running].arg0)];
      assert State() == Valued(k);
      ReparentChildren();
      Depart();
    }

    /** The caller becomes a zombie; its parent runs if it was waiting for that, otherwise the first ready process. */
    method Depart()
      requires running in procs && Leave(State()).Ok?
      modifies this
      ensures Leave(old(State())) == Ok(State())
    {
      hide Bury;
      var me := running;
      procs := procs[me := procs[me].(status := Zombie)];
      zombies := zombies + [me];
      var p := procs[me].parent;
      if procs[p].status == Waiting && procs[p].call == CALL_WAIT && (procs[p].arg0 == 0 || procs[p].arg0 == me) {
        running := NULL;
        BuryChild(me);
      } else {
        RunFirstReady();
        procs := procs[running := procs[running].(status := Running)];
      }
    }

    /** The parent of `me` leaves the waiting list and runs; `me` disappears. */
    method BuryChild(me: Pid)
      requires me in procs && procs[me].parent in procs && Bury(State(), me).Ok?
      modifies this
      ensures Bury(old(State()), me) == Ok(State())
    {
      hide Bury, FreePcb, Orphaned;
      BuryShape(State(), me);
      TakeOver(me);
      PcbFree(me);
    }

    method TakeOver(me: Pid)
      requires me in procs && procs[me].parent in procs
      modifies this
      ensures State() == Orphaned(old(State()), me) && procs.Keys == old(procs.Keys)
    {
      hide DropTimers, Without;
      var p := procs[me].parent;
      WakeParent(p, me);
      FreeTimersOf(me);
      zombies := Without(zombies, me);
      running := p;
    }

    method WakeParent(p: Pid, me: Pid)
      requires p in procs
      modifies `procs, `waiting
      ensures waiting == Without(old(waiting), p)
      ensures procs == old(procs[p := procs[p].(status := Running, children := Without(procs[p].children, me),
                                                ret := me)])
    {
      waiting := Without(waiting, p);
      procs := procs[p := procs[p].(status := Running, children := Without(procs[p].children, me), ret := me)];
    }

    method PcbFree(p: Pid)
      requires p in procs
      modifies `procs, `freePcbs
      ensures State() == FreePcb(old(State()), p)
    {
      freePcbs := [procs[p].semDescs] + freePcbs;
      procs := procs - {p};
    }

    // ---- the trap handler

    /** One step of the machine: the trap stores the call in the caller's PCB and runs its handler. Any call may be
        handled that does not fault. */
    method Handle(e: Event)
      requires Valid() && Step(State(), e).Ok?
      modifies this
      ensures Step(old(State()), e) == Ok(State())
      ensures (e.ExitCall? ==> old(CleanExit(State()))) ==> Inv(State())
      ensures (e.ExitCall? ==> old(CleanExit(State()))) && (e.SleepCall? ==> old(ready) != []) ==> Valid()
    {
      hide Inv, Faults, Schedule, Spawn, Exit, Wait, Sleep, SemOpen, SemClose, SemWait, SemPost, Tick;
      ghost var k := State();
      if !e.ExitCall? { StepKeeps(k, e); }
      match e
      case TickEvent => TimerInterrupt();
      case PreemptCall => Trap(CALL_PREEMPT, []); InternalSchedule();
      case SpawnCall => SpawnRoom(k); Trap(CALL_SPAWN, [0, 0]); InternalSpawn();
      case ExitCall(v) => InitStays(k, v); Trap(CALL_EXIT, [v]); InternalExit();
      case WaitCall(p) => Trap(CALL_WAIT, [p, 0]); InternalWait();
      case SleepCall(n) => Trap(CALL_SLEEP, [n]); InternalSleep();
      case SemOpenCall(id, c) => Trap(CALL_SEMOPEN, [id, c]); InternalSemOpen();
      case SemCloseCall(fd) => Trap(CALL_SEMCLOSE, [fd]); InternalSemClose();
      case SemWaitCall(fd) => Trap(CALL_SEMWAIT, [fd]); InternalSemWait();
      case SemPostCall(fd) => Trap(CALL_SEMPOST, [fd]); InternalSemPost();
    }
  }

  /** A clean exit gives its pid to the parent that awaits it. */
  lemma HandsPid(k: K)
    requires Inv(k) && CleanExit(k) && Exit(k).Ok?
    ensures var r, p := Exit(k).value, k.procs[k.running].parent;
            && p in k.procs
            && (ParentAwaits(k, k.running) ==> r.running == p && p in r.procs && r.procs[p].ret == k.running)
  {
    hide Inv, SchedInv, FamilyInv, Leave;
    InvParts(k);
    ParentFacts(k);
    LeaveFrame(Valued(k), k.procs[k.running].parent);
  }

  lemma InitStays(k: K, v: int)
    requires Inv(k) && Step(k, ExitCall(v)).Ok?
    ensures k.running != INIT
  {
    hide Inv, Step;
    if k.running == INIT { InitExitFaults(k, v); }
  }

  lemma SpawnRoom(k: K)
    requires k.running in k.procs && !Faults(k, SpawnCall)
    ensures k.freePcbs != [] && k.freePcbPtrs > 0
  {
  }

  lemma AllMoved(k: K, procs: map<Pid, Proc>)
    requires k.running in k.procs && INIT in k.procs && procs.Keys == k.procs.Keys
    requires k.running == INIT ==> k.procs[INIT].children == []
    requires forall p :: p in procs && p != k.running && p != INIT ==> procs[p] == k.procs[p]
    requires procs[k.running] == k.procs[k.running].(children := [])
    requires k.running != INIT ==>
               procs[INIT] == k.procs[INIT].(children := k.procs[INIT].children + k.procs[k.running].children)
    ensures Reparent(k) == Ok(k.(procs := procs))
  {
    var want := Reparent(k).value.procs;
    forall p | p in procs ensures procs[p] == want[p] {
      if p == INIT && k.running != INIT {
        assert k.procs[INIT].children + [] == k.procs[INIT].children;
      }
    }
    assert procs == want;
  }

  ghost function HalfOpened(k: K, ref: Ref): K
    requires k.running in k.procs
  {
    var me := k.procs[k.running];
    Put(k, k.running, me.(semDescs := me.semDescs + [k.nextRef], lastSemFd := me.lastSemFd + 1))
    .(descs := k.descs[k.nextRef := SemDesc(k.running, ref, me.lastSemFd, NULL)],
      freeDescs := k.freeDescs - 1, nextRef := k.nextRef + 1)
  }

  ghost function Paired(k: K, d: Ref, ref: Ref): K
    requires d in k.descs && ref in k.sems
  {
    SetSem(k, ref, k.sems[ref].(descs := k.sems[ref].descs + [k.nextRef]))
    .(ptrs := k.ptrs[k.nextRef := d], descs := k.descs[d := k.descs[d].(ptr := k.nextRef)],
      freePtrs := k.freePtrs - 1, nextRef := k.nextRef + 1)
  }

  lemma BothHalves(k: K, ref: Ref)
    requires k.running in k.procs && ref in k.sems
    ensures Paired(HalfOpened(k, ref), k.nextRef, ref) == Opened(k, ref)
  {
  }

  /** The parent of `me` has been taken out of its wait, and `me` out of every list. */
  ghost function Orphaned(k: K, me: Pid): K
    requires me in k.procs && k.procs[me].parent in k.procs
  {
    var p := k.procs[me].parent;
    var parent := k.procs[p].(status := Running, children := Without(k.procs[p].children, me), ret := me);
    var others := DropTimers(k.timers, me);
    k.(procs := k.procs[p := parent], waiting := Without(k.waiting, p), timers := others,
       freeTimers := k.freeTimers + |k.timers| - |others|, zombies := Without(k.zombies, me), running := p)
  }

  lemma BuryShape(k: K, me: Pid)
    requires me in k.procs && k.procs[me].parent in k.procs && Bury(k, me).Ok?
    ensures Bury(k, me) == Ok(FreePcb(Orphaned(k, me), me))
  {
    hide DropTimers, Without, FreePcb;
  }
}
