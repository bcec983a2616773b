/** What holds between any two steps of the kernel. */
module KernelInvariant {
  import opened Seqs
  import opened KernelState
  import H = HandoffSemaphore

  // ---- the queues

  /** Every process is in exactly one place: running, ready, waiting or zombie. The three statuses differ, so the
      queues are disjoint; each holds a process at most once. */
  ghost predicate SchedInv(k: K) {
    && NoDup(k.ready) && NoDup(k.waiting) && NoDup(k.zombies)
    && (k.running == NULL || k.running in k.procs)
    && k.lastPid >= 0 && (forall p :: p in k.procs ==> 0 <= p < k.lastPid)
    && (forall p {:trigger Placed(k, p, Ready)} :: p in k.ready ==> Placed(k, p, Ready))
    && (forall p {:trigger Placed(k, p, Waiting)} :: p in k.waiting ==> Placed(k, p, Waiting))
    && (forall p {:trigger Placed(k, p, Zombie)} :: p in k.zombies ==> Placed(k, p, Zombie))
    && (forall p {:trigger Unlinked(k, p)} :: p in k.procs ==> p == k.running || !Unlinked(k, p))
  }

  ghost predicate Placed(k: K, p: Pid, s: Status) {
    p in k.procs && k.procs[p].status == s && p != k.running
  }

  // ---- reasons to wait

  /** A waiting process has exactly one reason, told by its last system call. */
  ghost predicate ReasonOk(k: K, p: Pid) {
    && p in k.procs
    && (k.procs[p].call == CALL_SLEEP || k.procs[p].call == CALL_WAIT || k.procs[p].call == CALL_SEMWAIT)
    && (k.procs[p].call == CALL_SLEEP ==> HasTimer(k.timers, p))
    && (k.procs[p].call == CALL_SEMWAIT ==> BlockedOnSem(k, p))
  }

  ghost predicate ReasonInv(k: K) {
    forall p {:trigger ReasonOk(k, p)} :: p in k.waiting ==> ReasonOk(k, p)
  }

  ghost predicate HasTimer(ts: seq<Timer>, p: Pid) { exists i :: 0 <= i < |ts| && ts[i].pid == p }

  ghost predicate SleepsBy(k: K, t: Timer) {
    t.pid in k.waiting && t.pid in k.procs && k.procs[t.pid].call == CALL_SLEEP
  }

  ghost predicate TimerInv(k: K) {
    && (forall i, j :: 0 <= i < j < |k.timers| ==>
          k.timers[i].awake <= k.timers[j].awake && k.timers[i].pid != k.timers[j].pid)
    && (forall i {:trigger SleepsBy(k, k.timers[i])} :: 0 <= i < |k.timers| ==> SleepsBy(k, k.timers[i]))
    && (forall p {:trigger k.procs[p].hasTimer} :: p in k.procs ==> !k.procs[p].hasTimer)
    && |k.timers| + k.freeTimers == MAX_NUM_PROCESSES
  }

  /** Some descriptor of `p`, the one its call named, is in the waiting list of its semaphore. */
  ghost predicate BlockedOnSem(k: K, p: Pid)
    requires p in k.procs
  {
    exists d :: d in k.procs[p].semDescs && BlockedBy(k, p, d)
  }

  ghost predicate BlockedBy(k: K, p: Pid, d: Ref)
    requires p in k.procs
  {
    && d in k.descs && k.descs[d].fd == k.procs[p].arg0
    && k.descs[d].sem in k.sems && k.descs[d].ptr in k.sems[k.descs[d].sem].waitingDescs
  }

  // ---- semaphores and descriptors

  ghost predicate DescOk(k: K, d: Ref)
    requires d in k.descs
  {
    var x := k.descs[d];
    && 0 <= d < k.nextRef
    && x.pid in k.procs && d in k.procs[x.pid].semDescs
    && x.ptr in k.ptrs && k.ptrs[x.ptr] == d
    && x.sem in k.sems && (x.ptr in k.sems[x.sem].descs || x.ptr in k.sems[x.sem].waitingDescs)
  }

  ghost predicate PtrOk(k: K, q: Ref)
    requires q in k.ptrs
  {
    0 <= q < k.nextRef && k.ptrs[q] in k.descs && k.descs[k.ptrs[q]].ptr == q
  }

  ghost predicate NodeOf(k: K, s: Ref, q: Ref) {
    q in k.ptrs && k.ptrs[q] in k.descs && k.descs[k.ptrs[q]].sem == s
  }

  /** The process behind a waiting node is blocked by exactly this call. */
  ghost predicate WaitsThrough(k: K, q: Ref) {
    && q in k.ptrs && k.ptrs[q] in k.descs
    && var x := k.descs[k.ptrs[q]];
       x.pid in k.waiting && x.pid in k.procs && k.procs[x.pid].call == CALL_SEMWAIT && k.procs[x.pid].arg0 == x.fd
  }

  ghost predicate SemOk(k: K, s: Ref)
    requires s in k.sems
  {
    var x := k.sems[s];
    && 0 <= s < k.nextRef
    && NoDup(x.descs) && NoDup(x.waitingDescs)
    && (forall q :: q in x.descs ==> NodeOf(k, s, q) && q !in x.waitingDescs)
    && (forall q :: q in x.waitingDescs ==> NodeOf(k, s, q) && WaitsThrough(k, q))
    && |x.waitingDescs| == H.Max0(-x.count)
  }

  ghost predicate ProcDescsOk(k: K, p: Pid)
    requires p in k.procs
  {
    var x := k.procs[p];
    && NoDup(x.semDescs)
    && (forall d :: d in x.semDescs ==>
          d in k.descs && k.descs[d].pid == p && 0 <= k.descs[d].fd < x.lastSemFd)
    && (forall d, e :: d in x.semDescs && e in x.semDescs && d != e ==>
          d in k.descs && e in k.descs && k.descs[d].fd != k.descs[e].fd)
    && x.lastSemFd >= 0
  }

  /** No dangling pointer among semaphores and descriptors, and every link has its counterpart. */
  ghost predicate DescInv(k: K) {
    && k.nextRef >= 0
    && (forall d {:trigger DescOk(k, d)} :: d in k.descs ==> DescOk(k, d))
    && (forall q {:trigger PtrOk(k, q)} :: q in k.ptrs ==> PtrOk(k, q))
    && (forall s {:trigger SemOk(k, s)} :: s in k.sems ==> SemOk(k, s))
    && (forall p {:trigger ProcDescsOk(k, p)} :: p in k.procs ==> ProcDescsOk(k, p))
    && NoDup(k.semList)
    && (forall s :: s in k.semList <==> s in k.sems)
    && (forall s, t :: s in k.sems && t in k.sems && s != t ==> k.sems[s].id != k.sems[t].id)
  }

  // ---- families

  ghost predicate FamilyOk(k: K, p: Pid)
    requires p in k.procs
  {
    var x := k.procs[p];
    && NoDup(x.children)
    && (forall c :: c in x.children ==> c in k.procs && k.procs[c].parent == p && p < c)
    && (x.parent == NULL <==> p == INIT)
    && (x.parent != NULL ==> x.parent in k.procs && p in k.procs[x.parent].children)
  }

  /** No lost wake-up: a process blocked in wait has no zombie child that would end its wait. */
  ghost predicate StillAwaits(k: K, p: Pid)
    requires p in k.procs
  {
    forall c :: c in k.procs[p].children && c in k.procs && k.procs[c].status == Zombie ==>
      k.procs[p].arg0 != 0 && k.procs[p].arg0 != c
  }

  ghost predicate FamilyInv(k: K) {
    && INIT in k.procs
    && (forall p {:trigger FamilyOk(k, p)} :: p in k.procs ==> FamilyOk(k, p))
    && (forall p :: p in k.procs && k.procs[p].status == Zombie && p in k.zombies ==>
          k.procs[p].children == [] && k.procs[p].semDescs == [])
    && (forall p {:trigger StillAwaits(k, p)} ::
          p in k.waiting && p in k.procs && k.procs[p].call == CALL_WAIT ==> StillAwaits(k, p))
  }

  // ---- pools

  /** Every block is in use or free, and a free block's uninitialised list field is an empty list. */
  ghost predicate PoolInv(k: K) {
    && |k.procs| + |k.freePcbs| == MAX_NUM_PROCESSES
    && |k.sems| + |k.freeSems| == MAX_NUM_SEMAPHORES
    && |k.descs| + k.freeDescs == MAX_NUM_PROCESSES
    && |k.ptrs| + k.freePtrs == MAX_NUM_PROCESSES
    && k.freeDescs == k.freePtrs
    && (forall i :: 0 <= i < |k.freePcbs| ==> k.freePcbs[i] == [])
    && (forall i :: 0 <= i < |k.freeSems| ==> k.freeSems[i] == [])
  }

  ghost predicate Inv(k: K) {
    && SchedInv(k) && ReasonInv(k) && TimerInv(k)
    && DescInv(k) && FamilyInv(k) && PoolInv(k)
  }

  lemma BootInv()
    ensures Inv(Boot())
  {
    var k := Boot();
    assert |k.procs| == 1;
  }
}
