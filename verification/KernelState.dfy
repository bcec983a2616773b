/** The kernel's global state as a value, and every system call as a function on it. A function follows its
    handler branch by branch; where the C code would follow a pointer that leads nowhere or detach a node from a
    list that does not hold it, the result is `Fault`. */
module KernelState {
  import opened Outcomes
  import opened Seqs

  /** A process is named by its pid: `last_pid` only grows, so a pid is never used twice. */
  type Pid = int
  /** A semaphore or descriptor object. Every allocation gets a new name, so a name that is no longer in its map
      is a dangling pointer. */
  type Ref = int

  const NULL := -1
  const INIT := 0
  const MAX_NUM_PROCESSES := 1024
  const MAX_NUM_SEMAPHORES := 1024

  const DSOS_EWAIT := -5
  const DSOS_ESLEEP := -7
  const DSOS_ESEMOPEN := -14
  const DSOS_ESEMCLOSE := -15
  const DSOS_ESEMWAIT := -16
  const DSOS_ESEMPOST := -17

  const CALL_PREEMPT := 1
  const CALL_WAIT := 3
  const CALL_EXIT := 4
  const CALL_SPAWN := 5
  const CALL_SLEEP := 6
  const CALL_SEMOPEN := 11
  const CALL_SEMCLOSE := 12
  const CALL_SEMWAIT := 13
  const CALL_SEMPOST := 14

  datatype Status = Running | Ready | Waiting | Zombie

  datatype Proc = Proc(
    status: Status,
    parent: Pid,
    children: seq<Pid>,
    hasTimer: bool,
    lastSemFd: int,
    semDescs: seq<Ref>,
    call: int,
    arg0: int,
    arg1: int,
    ret: int,
    exitValue: int)

  datatype Semaphore = Semaphore(id: int, count: int, descs: seq<Ref>, waitingDescs: seq<Ref>)

  datatype SemDesc = SemDesc(pid: Pid, sem: Ref, fd: int, ptr: Ref)

  datatype Timer = Timer(awake: int, pid: Pid)

  /** `ptrs` maps each SemDescriptorPtr to its descriptor. The free pools of PCBs and semaphores also keep, for each
      free block, the one list field that allocation does not initialise; the other pools are counts. */
  datatype K = K(
    running: Pid,
    lastPid: Pid,
    now: int,
    ready: seq<Pid>,
    waiting: seq<Pid>,
    zombies: seq<Pid>,
    timers: seq<Timer>,
    procs: map<Pid, Proc>,
    semList: seq<Ref>,
    sems: map<Ref, Semaphore>,
    descs: map<Ref, SemDesc>,
    ptrs: map<Ref, Ref>,
    nextRef: Ref,
    freePcbs: seq<seq<Ref>>,
    freePcbPtrs: int,
    freeTimers: int,
    freeSems: seq<seq<Ref>>,
    freeDescs: int,
    freePtrs: int)

  // ---- small steps shared by the handlers

  function Put(k: K, p: Pid, c: Proc): K { k.(procs := k.procs[p := c]) }

  function SetSem(k: K, s: Ref, v: Semaphore): K { k.(sems := k.sems[s := v]) }

  /** The entry of a system call: its number and arguments are stored in the caller's PCB. */
  function Enter(k: K, call: int, args: seq<int>): Outcome<K> {
    if k.running !in k.procs then Fault
    else
      var me := k.procs[k.running];
      Ok(Put(k, k.running, me.(call := call,
                               arg0 := if |args| > 0 then args[0] else me.arg0,
                               arg1 := if |args| > 1 then args[1] else me.arg1)))
  }

  /** `running->syscall_retvalue = v`, for whichever process is running by then. */
  function Return(k: K, v: int): Outcome<K> {
    if k.running !in k.procs then Fault else Ok(Put(k, k.running, k.procs[k.running].(ret := v)))
  }

  /** The PCB's list node is in none of the three queues, so inserting it somewhere is sound. */
  predicate Unlinked(k: K, p: Pid) { p !in k.ready && p !in k.waiting && p !in k.zombies }

  /** The running process goes to the end of the ready queue and nobody runs. */
  function Yield(k: K): Outcome<K> {
    if k.running !in k.procs || !Unlinked(k, k.running) then Fault
    else Ok(Put(k, k.running, k.procs[k.running].(status := Ready)).(running := NULL, ready := k.ready + [k.running]))
  }

  /** The running process goes to the end of the waiting list and nobody runs. */
  function Park(k: K): Outcome<K> {
    if k.running !in k.procs || !Unlinked(k, k.running) then Fault
    else
      Ok(Put(k, k.running, k.procs[k.running].(status := Waiting))
         .(running := NULL, waiting := k.waiting + [k.running]))
  }

  /** `running = List_detach(&ready_list, ready_list.first)`: a null dereference when nobody is ready. */
  function Dispatch(k: K): Outcome<K> {
    if k.ready == [] then Fault else Ok(k.(running := k.ready[0], ready := k.ready[1..]))
  }

  function MarkRunning(k: K): Outcome<K> {
    if k.running !in k.procs then Fault else Ok(Put(k, k.running, k.procs[k.running].(status := Running)))
  }

  predicate AllIn<T(==)>(l: seq<Ref>, m: map<Ref, T>) {
    forall i :: 0 <= i < |l| ==> l[i] in m
  }

  /** The first descriptor of the list with this number. */
  function ByFd(descs: map<Ref, SemDesc>, l: seq<Ref>, fd: int): (r: Option<Ref>)
    requires AllIn(l, descs)
    ensures r.Some? ==> r.value in l && r.value in descs && descs[r.value].fd == fd
    ensures r == None ==> forall d :: d in l ==> d in descs && descs[d].fd != fd
  {
    if l == [] then None else if descs[l[0]].fd == fd then Some(l[0]) else ByFd(descs, l[1..], fd)
  }

  /** The first semaphore of the list with this id. */
  function ById(sems: map<Ref, Semaphore>, l: seq<Ref>, id: int): (r: Option<Ref>)
    requires AllIn(l, sems)
    ensures r.Some? ==> r.value in l && r.value in sems && sems[r.value].id == id
    ensures r == None ==> forall s :: s in l ==> s in sems && sems[s].id != id
  {
    if l == [] then None else if sems[l[0]].id == id then Some(l[0]) else ById(sems, l[1..], id)
  }

  /** The running process's descriptor for `fd`. */
  function Lookup(k: K, fd: int): (r: Outcome<Option<Ref>>)
    ensures r.Ok? && r.value.Some? ==>
              k.running in k.procs && r.value.value in k.procs[k.running].semDescs && r.value.value in k.descs
  {
    if k.running !in k.procs || !AllIn(k.procs[k.running].semDescs, k.descs) then Fault
    else Ok(ByFd(k.descs, k.procs[k.running].semDescs, fd))
  }

  // ---- semaphores

  function SemWait(k: K): Outcome<K> {
    var found :- Lookup(k, if k.running in k.procs then k.procs[k.running].arg0 else 0);
    match found
    case None => Return(k, DSOS_ESEMWAIT)
    case Some(d) =>
      var desc := k.descs[d];
      if desc.ptr == NULL || desc.sem == NULL then Return(k, DSOS_ESEMWAIT)
      else if desc.sem !in k.sems then Fault
      else
        var s := k.sems[desc.sem].(count := k.sems[desc.sem].count - 1);
        if s.count >= 0 then Return(SetSem(k, desc.sem, s), 0)
        else
          var rest :- Detach(s.descs, desc.ptr);
          var blocked := s.(descs := rest, waitingDescs := s.waitingDescs + [desc.ptr]);
          var k1 :- Park(SetSem(k, desc.sem, blocked));
          var k2 :- Dispatch(k1);
          Return(k2, 0)
  }

  function SemPost(k: K): Outcome<K> {
    var found :- Lookup(k, if k.running in k.procs then k.procs[k.running].arg0 else 0);
    match found
    case None => Return(k, DSOS_ESEMPOST)
    case Some(d) =>
      var ref := k.descs[d].sem;
      if ref == NULL then Return(k, DSOS_ESEMPOST)
      else if ref !in k.sems then Fault
      else
        var s := k.sems[ref].(count := k.sems[ref].count + 1);
        if s.count > 0 then Return(SetSem(k, ref, s), 0)
        else
          var k1 :- Yield(SetSem(k, ref, s));
          var k2 :- HandOff(k1, ref);
          Return(k2, 0)
  }

  /** The first process blocked on the semaphore leaves it, and the waiting list, and runs. */
  function HandOff(k: K, ref: Ref): Outcome<K>
    requires ref in k.sems
  {
    var s := k.sems[ref];
    if s.waitingDescs == [] then Fault
    else
      var q := s.waitingDescs[0];
      if q !in k.ptrs || k.ptrs[q] !in k.descs then Fault
      else
        var woken := k.descs[k.ptrs[q]].pid;
        var rest :- Detach(k.waiting, woken);
        Ok(SetSem(k, ref, s.(descs := s.descs + [q], waitingDescs := s.waitingDescs[1..]))
           .(waiting := rest, running := woken))
  }

  function SemOpen(k: K): Outcome<K> {
    if k.running !in k.procs then Fault
    else
      var me := k.procs[k.running];
      if me.arg1 < 0 || me.arg0 < 0 then Return(k, DSOS_ESEMOPEN)
      else if !AllIn(k.semList, k.sems) then Fault
      else
        match ById(k.sems, k.semList, me.arg0)
        case Some(ref) => OpenDesc(k, ref)
        case None =>
          if k.freeSems == [] then Return(k, DSOS_ESEMOPEN)
          else OpenDesc(AllocSem(k, me.arg0, me.arg1), k.nextRef)
  }

  /** A new semaphore, whose `waiting_descriptors` is whatever the block held before. */
  function AllocSem(k: K, id: int, count: int): K
    requires k.freeSems != []
  {
    k.(sems := k.sems[k.nextRef := Semaphore(id, count, [], k.freeSems[0])],
       semList := k.semList + [k.nextRef],
       freeSems := k.freeSems[1..],
       nextRef := k.nextRef + 1)
  }

  /** The two descriptor nodes of an open semaphore, allocated one after the other. */
  function OpenDesc(k: K, ref: Ref): Outcome<K>
    requires k.running in k.procs
  {
    if k.freeDescs <= 0 then Return(k, DSOS_ESEMOPEN)
    else
      var me := k.procs[k.running];
      var d := k.nextRef;
      var k1 := Put(k, k.running, me.(semDescs := me.semDescs + [d], lastSemFd := me.lastSemFd + 1))
                .(descs := k.descs[d := SemDesc(k.running, ref, me.lastSemFd, NULL)],
                  freeDescs := k.freeDescs - 1, nextRef := k.nextRef + 1);
      if k1.freePtrs <= 0 then Return(k1, DSOS_ESEMOPEN)
      else if ref !in k1.sems then Fault
      else
        var q := k1.nextRef;
        var s := k1.sems[ref];
        var k2 := SetSem(k1, ref, s.(descs := s.descs + [q]))
                  .(descs := k1.descs[d := k1.descs[d].(ptr := q)],
                    ptrs := k1.ptrs[q := d],
                    freePtrs := k1.freePtrs - 1, nextRef := k1.nextRef + 1);
        Return(k2, me.lastSemFd)
  }

  function SemClose(k: K): Outcome<K> {
    var fd := if k.running in k.procs then k.procs[k.running].arg0 else 0;
    var found :- Lookup(k, fd);
    if fd < 0 || found == None then Return(k, DSOS_ESEMCLOSE)
    else
      var d := found.value;
      var desc := k.descs[d];
      var me := k.procs[k.running];
      var mine :- Detach(me.semDescs, d);
      var k1 := Put(k, k.running, me.(semDescs := mine));
      if desc.sem == NULL then Return(k1, DSOS_ESEMCLOSE)
      else if desc.sem !in k1.sems then Fault
      else
        var s := k1.sems[desc.sem];
        var rest :- Detach(s.descs, desc.ptr);
        var k2 := SetSem(k1, desc.sem, s.(descs := rest));
        var k3 :- (if rest == [] && s.waitingDescs == [] then FreeSem(k2, desc.sem) else Ok(k2));
        FreeDesc(k3, d, desc.ptr)
  }

  function FreeSem(k: K, ref: Ref): Outcome<K>
    requires ref in k.sems
  {
    var l :- Detach(k.semList, ref);
    Ok(k.(semList := l, sems := k.sems - {ref}, freeSems := [k.sems[ref].waitingDescs] + k.freeSems))
  }

  /** Both descriptor nodes go back to their pools; a pool refuses a block that is not handed out. */
  function FreeDesc(k: K, d: Ref, q: Ref): Outcome<K> {
    if d !in k.descs then Return(k, DSOS_ESEMCLOSE)
    else
      var k1 := k.(descs := k.descs - {d}, freeDescs := k.freeDescs + 1);
      if q !in k1.ptrs then Return(k1, DSOS_ESEMCLOSE)
      else Return(k1.(ptrs := k1.ptrs - {q}, freePtrs := k1.freePtrs + 1), 0)
  }

  // ---- timers and the scheduler

  /** Sorted insertion, after every timer that fires no later. */
  function AddTimer(ts: seq<Timer>, t: Timer): seq<Timer> {
    if ts == [] || t.awake < ts[0].awake then [t] + ts else [ts[0]] + AddTimer(ts[1..], t)
  }

  function Sleep(k: K): Outcome<K> {
    if k.running !in k.procs then Fault
    else
      var me := k.procs[k.running];
      if me.hasTimer then Return(k, DSOS_ESLEEP)
      else if k.freeTimers <= 0 then Return(k, DSOS_ESLEEP)
      else
        var t := Timer(k.now + me.arg0, k.running);
        var k1 :- Park(k.(timers := AddTimer(k.timers, t), freeTimers := k.freeTimers - 1));
        if k1.ready == [] then Ok(k1) else Dispatch(k1)
  }

  predicate Elapsed(k: K) { k.timers != [] && k.timers[0].awake <= k.now }

  /** One turn of the wake-up loop: the owner of the first timer becomes ready, `at` places from the front. */
  function WakeFirst(k: K, at: nat): Outcome<K>
    requires Elapsed(k)
  {
    var p := k.timers[0].pid;
    var rest :- Detach(k.waiting, p);
    if p !in k.procs || at > |k.ready| then Fault
    else
      Ok(Put(k, p, k.procs[p].(status := Ready, hasTimer := false))
         .(waiting := rest, ready := k.ready[..at] + [p] + k.ready[at..],
           timers := k.timers[1..], freeTimers := k.freeTimers + 1))
  }

  function WakeElapsed(k: K, at: nat): Outcome<K>
    decreases |k.timers|
  {
    if !Elapsed(k) then Ok(k)
    else
      var k1 :- WakeFirst(k, at);
      WakeElapsed(k1, at + 1)
  }

  function Schedule(k: K): Outcome<K> {
    var k1 :- WakeElapsed(k, 0);
    if k1.ready == [] then Ok(k1)
    else
      var k2 :- Yield(k1);
      var k3 :- Dispatch(k2);
      MarkRunning(k3)
  }

  function Tick(k: K): Outcome<K> { Schedule(k.(now := k.now + 1)) }

  // ---- processes

  /** A new child of the running process. The block's old `sem_descriptors` is not initialised. */
  function Spawn(k: K): Outcome<K> {
    if k.running !in k.procs || k.freePcbs == [] || k.freePcbPtrs <= 0 then Fault
    else
      var p := k.lastPid;
      var me := k.procs[k.running];
      var child := Proc(Ready, k.running, [], false, 0, k.freePcbs[0], 0, 0, 0, 0, 0);
      var k1 := Put(k, k.running, me.(children := me.children + [p], ret := p));
      Ok(Put(k1, p, child).(lastPid := p + 1, ready := k.ready + [p],
                            freePcbs := k.freePcbs[1..], freePcbPtrs := k.freePcbPtrs - 1))
  }

  /** The timers that do not belong to `p`. */
  function DropTimers(ts: seq<Timer>, p: Pid): seq<Timer> {
    if ts == [] then [] else (if ts[0].pid == p then [] else [ts[0]]) + DropTimers(ts[1..], p)
  }

  function FreePcb(k: K, p: Pid): K
    requires p in k.procs
  {
    k.(procs := k.procs - {p}, freePcbs := [k.procs[p].semDescs] + k.freePcbs)
  }

  /** Hands the caller's children to init. Init handing its children to itself would never end. */
  function Reparent(k: K): (r: Outcome<K>)
    requires k.running in k.procs
    ensures r.Ok? ==> r.value.running == k.running && r.value.procs.Keys == k.procs.Keys
  {
    var me := k.procs[k.running];
    if me.children == [] then Ok(k)
    else if INIT !in k.procs || k.running == INIT then Fault
    else
      var init := k.procs[INIT];
      Ok(Put(Put(k, INIT, init.(children := init.children + me.children)), k.running, me.(children := [])))
  }

  /** The parent sleeps in a wait that this process ends. */
  predicate ParentAwaits(k: K, p: Pid)
    requires p in k.procs && k.procs[p].parent in k.procs
  {
    var parent := k.procs[k.procs[p].parent];
    && parent.status == Waiting && parent.call == CALL_WAIT
    && (parent.arg0 == 0 || parent.arg0 == p)
  }

  function Exit(k: K): Outcome<K> {
    if k.running !in k.procs || INIT !in k.procs then Fault
    else
      var me := k.procs[k.running];
      var k1 :- Reparent(Put(k, k.running, me.(exitValue := me.arg0)));
      Leave(k1)
  }

  /** The caller becomes a zombie; its parent runs if it was waiting for that, otherwise the first ready process. */
  function Leave(k: K): Outcome<K>
    requires k.running in k.procs
  {
    var me := k.running;
    if !Unlinked(k, me) then Fault
    else
      var k1 := Put(k, me, k.procs[me].(status := Zombie)).(running := NULL, zombies := k.zombies + [me]);
      if k1.procs[me].parent !in k1.procs then Fault
      else if ParentAwaits(k1, me) then Bury(k1, me)
      else
        var k2 :- Dispatch(k1);
        MarkRunning(k2)
  }

  /** The awaited child is removed for good and its parent runs with the child's pid as result. */
  function Bury(k: K, me: Pid): Outcome<K>
    requires me in k.procs && k.procs[me].parent in k.procs
  {
    var p := k.procs[me].parent;
    var rest :- Detach(k.waiting, p);
    var siblings :- Detach(k.procs[p].children, me);
    var others := DropTimers(k.timers, me);
    var zs :- Detach(k.zombies, me);
    var k1 := Put(k, p, k.procs[p].(status := Running, children := siblings, ret := me))
              .(waiting := rest, timers := others, freeTimers := k.freeTimers + |k.timers| - |others|,
                zombies := zs, running := p);
    Ok(FreePcb(k1, me))
  }

  /** The child the scan stops at: the first that matches, otherwise the last. */
  function ScanChildren(k: K, cs: seq<Pid>, pid: int): (c: Pid)
    requires cs != [] && forall i :: 0 <= i < |cs| ==> cs[i] in k.procs
    ensures c in cs && c in k.procs
    ensures Matches(k, c, pid) || forall x :: x in cs ==> x in k.procs && !Matches(k, x, pid)
  {
    if |cs| == 1 || Matches(k, cs[0], pid) then cs[0] else ScanChildren(k, cs[1..], pid)
  }

  predicate Matches(k: K, c: Pid, pid: int)
    requires c in k.procs
  {
    (pid == 0 && k.procs[c].status == Zombie) || (pid != 0 && c == pid)
  }

  function Wait(k: K): Outcome<K> {
    if k.running !in k.procs then Fault
    else
      var me := k.procs[k.running];
      if me.children == [] then Return(k, DSOS_EWAIT)
      else if exists i :: 0 <= i < |me.children| && me.children[i] !in k.procs then Fault
      else
        var c := ScanChildren(k, me.children, me.arg0);
        if k.procs[c].status == Zombie then Reap(k, c)
        else
          var k1 :- Park(k);
          Dispatch(k1)
  }

  function Reap(k: K, c: Pid): Outcome<K>
    requires k.running in k.procs && c in k.procs
  {
    var me := k.procs[k.running];
    var siblings :- Detach(me.children, c);
    var zs :- Detach(k.zombies, c);
    var k1 := Put(k, k.running, me.(children := siblings, ret := c))
              .(zombies := zs, freePcbPtrs := k.freePcbPtrs + 1);
    if c !in k1.procs then Fault else Ok(FreePcb(k1, c))
  }

  // ---- one step of the machine

  datatype Event =
    | TickEvent
    | PreemptCall
    | SpawnCall
    | ExitCall(value: int)
    | WaitCall(pid: int)
    | SleepCall(cycles: int)
    | SemOpenCall(id: int, count: int)
    | SemCloseCall(fd: int)
    | SemWaitCall(fd: int)
    | SemPostCall(fd: int)

  function Step(k: K, e: Event): Outcome<K> {
    match e
    case TickEvent => if k.running !in k.procs then Fault else Tick(k)
    case PreemptCall => var k1 :- Enter(k, CALL_PREEMPT, []); Schedule(k1)
    case SpawnCall => var k1 :- Enter(k, CALL_SPAWN, [0, 0]); Spawn(k1)
    case ExitCall(v) => var k1 :- Enter(k, CALL_EXIT, [v]); Exit(k1)
    case WaitCall(p) => var k1 :- Enter(k, CALL_WAIT, [p, 0]); Wait(k1)
    case SleepCall(n) => var k1 :- Enter(k, CALL_SLEEP, [n]); Sleep(k1)
    case SemOpenCall(id, c) => var k1 :- Enter(k, CALL_SEMOPEN, [id, c]); SemOpen(k1)
    case SemCloseCall(fd) => var k1 :- Enter(k, CALL_SEMCLOSE, [fd]); SemClose(k1)
    case SemWaitCall(fd) => var k1 :- Enter(k, CALL_SEMWAIT, [fd]); SemWait(k1)
    case SemPostCall(fd) => var k1 :- Enter(k, CALL_SEMPOST, [fd]); SemPost(k1)
  }

  /** The state `disastrOS_start` sets up: init runs, everything else is empty and the pools are full. */
  function Boot(): K {
    K(INIT, 1, 0, [], [], [], [],
      map[INIT := Proc(Running, NULL, [], false, 0, [], 0, 0, 0, 0, 0)],
      [], map[], map[], map[], 0,
      seq(MAX_NUM_PROCESSES - 1, _ => []), MAX_NUM_PROCESSES, MAX_NUM_PROCESSES,
      seq(MAX_NUM_SEMAPHORES, _ => []), MAX_NUM_PROCESSES, MAX_NUM_PROCESSES)
  }
}
