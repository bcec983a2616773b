/** What a semaphore call returns, and to whom; and that close undoes open. */
module KernelResults {
  import opened Outcomes
  import opened Seqs
  import opened KernelState
  import opened KernelInvariant
  import opened KernelSemMoves
  import opened KernelSteps
  import opened KernelSemaphores
  import opened KernelRuns
  import opened KernelTables
  import H = HandoffSemaphore

  /** Process `p` has some semaphore open under the number `fd`. */
  ghost predicate IsOpen(k: K, p: Pid, fd: int) { exists s :: HasOpen(k, p, fd, s) }

  /** Semaphores, descriptors, their lists and their pools are as in `k`. */
  ghost predicate SemsAs(k: K, k2: K) {
    && k2.sems == k.sems && k2.semList == k.semList && k2.descs == k.descs && k2.ptrs == k.ptrs
    && k2.freeSems == k.freeSems && k2.freeDescs == k.freeDescs && k2.freePtrs == k.freePtrs
    && k2.running == k.running && k.running in k.procs && k.running in k2.procs
    && k2.procs[k.running].semDescs == k.procs[k.running].semDescs
  }

  lemma IsOpenLookup(k: K, fd: int)
    requires Inv(k) && k.running in k.procs
    ensures Lookup(k, fd).Ok? && (IsOpen(k, k.running, fd) <==> Lookup(k, fd).value.Some?)
  {
    hide Inv, HasOpen;
    InvParts(k);
    LookupWorks(k, fd);
    if s :| HasOpen(k, k.running, fd, s) { HasOpenNames(k, fd, s); }
    if Lookup(k, fd).value.Some? {
      HasOpenNames(k, fd, k.descs[Lookup(k, fd).value.value].sem);
    }
  }

  /** Wait and post report an error, a negative value, exactly when the caller does not have the number open, and then
      do nothing else. The value goes to whoever runs after the call: the caller, the next ready process, or the process
      that was handed the permit. */
  lemma WaitPostResult(k: K, e: Event, k1: K)
    requires Inv(k) && Follows(k, e, k1) && (e.SemWaitCall? || e.SemPostCall?)
    ensures k1.running in k1.procs
    ensures k1.procs[k1.running].ret ==
            if IsOpen(k, k.running, e.fd) then 0 else if e.SemWaitCall? then DSOS_ESEMWAIT else DSOS_ESEMPOST
    ensures k1.procs[k1.running].ret < 0 <==> !IsOpen(k, k.running, e.fd)
    ensures !IsOpen(k, k.running, e.fd) ==> SemsAs(k, k1)
  {
    hide Inv, SemWait, SemPost, IsOpen;
    IsOpenLookup(k, e.fd);
    var call := if e.SemWaitCall? then CALL_SEMWAIT else CALL_SEMPOST;
    EnterKeeps(k, call, [e.fd]);
    var k0 := Enter(k, call, [e.fd]).value;
    assert Lookup(k0, e.fd) == Lookup(k, e.fd);
    if e.SemWaitCall? { WaitReturns(k0); } else { PostReturns(k0); }
  }

  lemma WaitReturns(k: K)
    requires Inv(k) && k.running in k.procs && SemWait(k).Ok?
    ensures var r, found := SemWait(k).value, Lookup(k, k.procs[k.running].arg0).value.Some?;
            && r.running in r.procs && r.procs[r.running].ret == (if found then 0 else DSOS_ESEMWAIT)
            && (!found ==> SemsAs(k, r))
  {
    hide Inv, SemWait, Park, Dispatch;
    FindsDescriptor(k);
    match Lookup(k, k.procs[k.running].arg0).value
    case None => SemWaitMissing(k);
    case Some(d) => SemWaitShape(k, d);
  }

  lemma PostReturns(k: K)
    requires Inv(k) && k.running in k.procs && SemPost(k).Ok?
    ensures var r, found := SemPost(k).value, Lookup(k, k.procs[k.running].arg0).value.Some?;
            && r.running in r.procs && r.procs[r.running].ret == (if found then 0 else DSOS_ESEMPOST)
            && (!found ==> SemsAs(k, r))
  {
    hide Inv, SemPost, HandOff, Yield;
    FindsDescriptor(k);
    match Lookup(k, k.procs[k.running].arg0).value
    case None => SemPostMissing(k);
    case Some(d) => SemPostShape(k, d);
  }

  /** Close reports an error exactly when the number is not open, and then does nothing else; afterwards the number is
      not open. */
  lemma CloseResult(k: K, fd: int, k1: K)
    requires Inv(k) && Follows(k, SemCloseCall(fd), k1)
    ensures k1.running == k.running && k1.running in k1.procs && !IsOpen(k1, k.running, fd)
    ensures k1.procs[k.running].ret == if IsOpen(k, k.running, fd) then 0 else DSOS_ESEMCLOSE
    ensures k1.procs[k.running].ret < 0 <==> !IsOpen(k, k.running, fd)
    ensures !IsOpen(k, k.running, fd) ==> SemsAs(k, k1)
  {
    hide Inv, SemClose, AfterClose, HasOpen;
    IsOpenLookup(k, fd);
    EnterKeeps(k, CALL_SEMCLOSE, [fd]);
    var k0 := Enter(k, CALL_SEMCLOSE, [fd]).value;
    EnteredLookup(k, fd);
    match Lookup(k0, fd).value
    case None =>
      SemCloseMissing(k0);
      SameLookup(k, k1, fd);
    case Some(d) =>
      InvParts(k0);
      LookupWorks(k0, fd);
      CloseShape(k0, d);
      AfterCloseKeeps(k0, d);
      ClosedNumber(k0, d, fd);
      StepKeeps(k, SemCloseCall(fd));
      IsOpenLookup(k1, fd);
  }

  lemma SameLookup(k: K, k1: K, fd: int)
    requires k.running in k.procs && k1.running == k.running && k1.running in k1.procs && k1.descs == k.descs
    requires k1.procs[k.running].semDescs == k.procs[k.running].semDescs
    ensures IsOpen(k1, k.running, fd) <==> IsOpen(k, k.running, fd)
  {
    forall s ensures HasOpen(k1, k.running, fd, s) <==> HasOpen(k, k.running, fd, s) {}
  }

  /** The number of the closed descriptor is not in the table any more, since no other entry had it. */
  lemma ClosedNumber(k: K, d: Ref, fd: int)
    requires DescInv(k) && k.running in k.procs && d in k.procs[k.running].semDescs
    requires d in k.descs && k.descs[d].fd == fd
    requires k.descs[d].sem in k.sems
    requires AfterClose(k, d).running == k.running && k.running in AfterClose(k, d).procs
    ensures !IsOpen(Return(AfterClose(k, d), 0).value, k.running, fd)
  {
    assert ProcDescsOk(k, k.running);
    WithoutMembers(k.procs[k.running].semDescs, d);
  }

  /** When the pools and the arguments allow an open to succeed. */
  ghost predicate CanOpenSem(k: K, id: int, count: int) {
    id >= 0 && count >= 0 && k.freeDescs > 0 && (!Unused(k, id) || k.freeSems != [])
  }

  /** The open gets as far as creating a semaphore. */
  ghost predicate CreatesSem(k: K, id: int, count: int) {
    id >= 0 && count >= 0 && Unused(k, id) && k.freeSems != []
  }

  /** An open that fails leaves everything about semaphores as it was, unless it has created one: then that semaphore
      stays behind at the end of the list, its block is gone from the pool, and no descriptor refers to it. */
  lemma FailedOpen(k: K, id: int, count: int, k1: K)
    requires Inv(k) && Follows(k, SemOpenCall(id, count), k1) && !CanOpenSem(k, id, count)
    ensures SemsAs(k, k1) <==> !CreatesSem(k, id, count)
    ensures k1.sems == k.sems <==> !CreatesSem(k, id, count)
    ensures CreatesSem(k, id, count) ==>
              && k.nextRef !in k.sems && k1.sems == k.sems[k.nextRef := Semaphore(id, count, [], [])]
              && k1.semList == k.semList + [k.nextRef] && k1.freeSems == k.freeSems[1..]
              && k1.descs == k.descs && k1.ptrs == k.ptrs && k1.freeDescs == k.freeDescs && k1.freePtrs == k.freePtrs
  {
    hide Inv, SemOpen, OpenDesc, ById, AllIn, Unused;
    EnterKeeps(k, CALL_SEMOPEN, [id, count]);
    var k0 := Enter(k, CALL_SEMOPEN, [id, count]).value;
    SemOpenShape(k0);
    if id >= 0 && count >= 0 {
      FoundOrUnused(k0, id);
      assert Unused(k0, id) == Unused(k, id) by { EnteredIds(k, k0, id); }
      match ById(k0.sems, k0.semList, id)
      case Some(s) => NoFreeDesc(k0, s);
      case None =>
        NoStaleWaiters(k);
        FreshRef(k);
        if k.freeSems != [] { NoFreeDesc(AllocSem(k0, id, count), k.nextRef); }
    }
  }

  lemma FreshRef(k: K)
    requires Inv(k)
    ensures k.nextRef !in k.sems
  {
    hide SchedInv, ReasonInv, TimerInv, FamilyInv, PoolInv, DescInv;
    FreshRefs(k);
  }

  /** Open returns the next number, which was not in use and now names the semaphore with this id, exactly when it
      can; otherwise it returns an error, and leaves the semaphores as they were unless it has created one. An open
      that fails only for want of a descriptor leaves behind the semaphore it created, with nobody to close it. */
  lemma OpenResult(k: K, id: int, count: int, k1: K)
    requires Inv(k) && Follows(k, SemOpenCall(id, count), k1)
    ensures k1.running == k.running && k1.running in k1.procs
    ensures var fd := k1.procs[k.running].ret;
            if CanOpenSem(k, id, count) then
              fd == k.procs[k.running].lastSemFd && fd >= 0 && !IsOpen(k, k.running, fd)
              && exists s :: HasOpen(k1, k.running, fd, s) && s in k1.sems && k1.sems[s].id == id
            else
              && fd == DSOS_ESEMOPEN && fd < 0 && (SemsAs(k, k1) <==> !CreatesSem(k, id, count))
              && (CreatesSem(k, id, count) ==>
                    k.nextRef in k1.sems && k1.sems[k.nextRef].id == id && k1.sems[k.nextRef].descs == [])
  {
    hide Inv, SemOpen, OpenDesc, ById, AllIn, Unused, HasOpen, IsOpen, SemsAs;
    if !CanOpenSem(k, id, count) { FailedOpen(k, id, count, k1); }
    EnterKeeps(k, CALL_SEMOPEN, [id, count]);
    var k0 := Enter(k, CALL_SEMOPEN, [id, count]).value;
    SemOpenShape(k0);
    NextNumber(k);
    if id >= 0 && count >= 0 {
      FoundOrUnused(k0, id);
      assert Unused(k0, id) == Unused(k, id) by { EnteredIds(k, k0, id); }
      match ById(k0.sems, k0.semList, id)
      case Some(s) => OpenDescResult(k0, s);
      case None => if k.freeSems != [] { OpenDescResult(AllocSem(k0, id, count), k.nextRef); }
    }
  }

  lemma EnteredIds(k: K, k1: K, id: int)
    requires k1.sems == k.sems
    ensures Unused(k1, id) == Unused(k, id)
  {
  }

  lemma FoundOrUnused(k: K, id: int)
    requires Inv(k) && AllIn(k.semList, k.sems)
    ensures var r := ById(k.sems, k.semList, id);
            if Unused(k, id) then r == None else r.Some? && r.value in k.sems && k.sems[r.value].id == id
  {
    hide SchedInv, ReasonInv, TimerInv, FamilyInv, PoolInv;
    if Unused(k, id) { NotFound(k, id); }
  }

  lemma NextNumber(k: K)
    requires Inv(k) && k.running in k.procs
    ensures k.procs[k.running].lastSemFd >= 0 && !IsOpen(k, k.running, k.procs[k.running].lastSemFd)
  {
    hide SchedInv, ReasonInv, TimerInv, FamilyInv, PoolInv;
    assert ProcDescsOk(k, k.running);
  }

  lemma OpenDescResult(k: K, s: Ref)
    requires Inv(k) && k.running in k.procs && s in k.sems
    ensures OpenDesc(k, s).Ok?
    ensures var r, me := OpenDesc(k, s).value, k.running;
            && r.running == me && me in r.procs && r.sems.Keys == k.sems.Keys && r.sems[s].id == k.sems[s].id
            && r.freeSems == k.freeSems && r.freeDescs == (if k.freeDescs > 0 then k.freeDescs - 1 else k.freeDescs)
            && if k.freeDescs > 0 then
                 r.procs[me].ret == k.procs[me].lastSemFd && HasOpen(r, me, k.procs[me].lastSemFd, s)
               else
                 r.procs[me].ret == DSOS_ESEMOPEN && r.sems == k.sems
  {
    hide Inv, OpenDesc;
    OpenDescKeeps(k, s);
    if k.freeDescs <= 0 { NoFreeDesc(k, s); } else { OpenedHas(k, s); }
  }

  lemma OpenedHas(k: K, s: Ref)
    requires k.running in k.procs && s in k.sems
    ensures var fd := k.procs[k.running].lastSemFd; HasOpen(Return(Opened(k, s), fd).value, k.running, fd, s)
  {
    var fd := k.procs[k.running].lastSemFd;
    var r := Return(Opened(k, s), fd).value;
    assert k.nextRef in r.procs[k.running].semDescs && k.nextRef in r.descs;
  }

  /** What an open takes from the pools. */
  lemma OpenPools(k: K, id: int, count: int, k1: K)
    requires Inv(k) && Follows(k, SemOpenCall(id, count), k1)
    ensures if CanOpenSem(k, id, count) then
              && k1.freeDescs == k.freeDescs - 1
              && k1.freeSems == if Unused(k, id) then k.freeSems[1..] else k.freeSems
            else
              k1.freeDescs == k.freeDescs
  {
    hide Inv, SemOpen, OpenDesc, ById, AllIn, Unused, HasOpen;
    EnterKeeps(k, CALL_SEMOPEN, [id, count]);
    var k0 := Enter(k, CALL_SEMOPEN, [id, count]).value;
    SemOpenShape(k0);
    FoundOrUnused(k0, id);
    assert Unused(k0, id) == Unused(k, id) by { EnteredIds(k, k0, id); }
    if id >= 0 && count >= 0 {
      match ById(k0.sems, k0.semList, id)
      case Some(s) => OpenDescResult(k0, s);
      case None => if k.freeSems != [] { OpenDescResult(AllocSem(k0, id, count), k.nextRef); }
    }
  }

  /** What a close gives back, and that it touches no other semaphore. */
  lemma ClosePools(k: K, fd: int, k1: K)
    requires Inv(k) && Follows(k, SemCloseCall(fd), k1) && IsOpen(k, k.running, fd)
    ensures k1.freeDescs == k.freeDescs + 1 && |k1.freeSems| >= |k.freeSems|
    ensures forall s :: s in k.sems && !Names(k, fd, s) ==> s in k1.sems && k1.sems[s] == k.sems[s]
  {
    hide Inv, SemClose, AfterClose, HasOpen;
    IsOpenLookup(k, fd);
    EnterKeeps(k, CALL_SEMCLOSE, [fd]);
    var k0 := Enter(k, CALL_SEMCLOSE, [fd]).value;
    EnteredLookup(k, fd);
    var d := Lookup(k0, fd).value.value;
    CloseShape(k0, d);
    AfterClosePools(k0, d);
  }

  lemma AfterClosePools(k: K, d: Ref)
    requires k.running in k.procs && d in k.descs && k.descs[d].sem in k.sems
    ensures var r := AfterClose(k, d);
            && r.freeDescs == k.freeDescs + 1 && |r.freeSems| >= |k.freeSems| && r.running == k.running
            && r.procs.Keys == k.procs.Keys
            && forall s :: s in k.sems && s != k.descs[d].sem ==> s in r.sems && r.sems[s] == k.sems[s]
  {
  }

  // ---- the count asked for

  /** Nobody has this id yet, or its semaphore is just as an open of that count would make it. */
  ghost predicate AsRequested(k: K, id: int, count: int) {
    forall t :: t in k.sems && k.sems[t].id == id ==> View(k, t) == H.Sem(count, [])
  }

  /** An open of an id in use ignores the count: the semaphore it leads to has the count asked for, and nobody
      waiting, exactly when the id was unused or its semaphore was like that already. */
  lemma OpenCount(k: K, id: int, count: int, k1: K, s: Ref)
    requires Inv(k) && Follows(k, SemOpenCall(id, count), k1) && s in k1.sems && k1.sems[s].id == id
    ensures View(k1, s) == H.Sem(count, []) <==> AsRequested(k, id, count)
    ensures s in k.sems ==> View(k1, s) == View(k, s)
  {
    hide Inv, Step, View;
    FollowsStep(k, SemOpenCall(id, count), k1);
    StepInv(k, SemOpenCall(id, count), k1);
    StepIds(k, SemOpenCall(id, count), k1);
    InvParts(k);
    InvParts(k1);
    forall t | t in k.sems && k.sems[t].id == id ensures t == s && View(k1, t) == View(k, t) {
      SemStep(k, SemOpenCall(id, count), t);
      assert t in k1.sems;
      OneId(k1, s, t);
      assert H.Exec(View(k, t), []) == View(k, t);
    }
    if s !in k.sems { SemBorn(k, SemOpenCall(id, count), s); }
  }

  lemma OneId(k: K, s: Ref, t: Ref)
    requires DescInv(k) && s in k.sems && t in k.sems && k.sems[s].id == k.sems[t].id
    ensures s == t
  {
  }

  // ---- close undoes open

  /** Somebody refers to the semaphore with this id, if there is one. */
  ghost predicate Held(k: K, id: int) {
    forall s :: s in k.sems && k.sems[s].id == id ==> k.sems[s].descs != [] || k.sems[s].waitingDescs != []
  }

  /** Taking off again what `Opened` has put on. */
  lemma ClosedOpened(k: K, s: Ref, kc: K)
    requires DescInv(k) && k.running in k.procs && s in k.sems && SemsAs(Opened(k, s), kc)
    ensures k.nextRef in kc.descs && kc.descs[k.nextRef].sem == s && SemsAs(k, Closed(kc, k.nextRef))
  {
    FreshRefs(k);
    var d, q := k.nextRef, k.nextRef + 1;
    assert d !in k.procs[k.running].semDescs by { assert ProcDescsOk(k, k.running); }
    assert q !in k.sems[s].descs by { assert SemOk(k, s); }
    WithoutLast(k.procs[k.running].semDescs, d);
    WithoutLast(k.sems[s].descs, q);
    hide DescInv, Without;
    PutAndTaken(k, s, kc);
  }

  lemma PutAndTaken(k: K, s: Ref, kc: K)
    requires k.running in k.procs && s in k.sems && SemsAs(Opened(k, s), kc)
    requires k.nextRef !in k.descs && k.nextRef + 1 !in k.ptrs
    requires var l := k.procs[k.running].semDescs; Without(l + [k.nextRef], k.nextRef) == l
    requires var l := k.sems[s].descs; Without(l + [k.nextRef + 1], k.nextRef + 1) == l
    ensures k.nextRef in kc.descs && kc.descs[k.nextRef].sem == s && SemsAs(k, Closed(kc, k.nextRef))
  {
    hide Without;
    var r := Closed(kc, k.nextRef);
    assert r.descs == k.descs && r.ptrs == k.ptrs;
    assert r.sems == k.sems;
  }

  lemma EnteredSems(k: K, id: int, count: int)
    requires k.running in k.procs
    ensures var k0 := Enter(k, CALL_SEMOPEN, [id, count]).value; SemsAs(k, k0) && k0.nextRef == k.nextRef
  {
  }

  lemma AllocKeeps(k: K, id: int, count: int)
    requires Inv(k) && Unused(k, id) && k.freeSems != [] && count >= 0 && id >= 0 && k.running in k.procs
    ensures Inv(AllocSem(k, id, count))
  {
    hide SchedInv, ReasonInv, TimerInv, DescInv, FamilyInv, PoolInv;
    AllocSemMove(k, id, count);
  }

  lemma AllocFacts(k: K, id: int, count: int)
    requires k.freeSems != [] && k.running in k.procs
    ensures var ka := AllocSem(k, id, count);
            k.nextRef in ka.sems && ka.running == k.running && ka.procs == k.procs && ka.freeDescs == k.freeDescs
  {
  }

  /** From the state in which the semaphore exists: the close works on what the open has put there. */
  lemma OpenThenClose(k: K, s: Ref, fd: int, k1: K, k2: K)
    requires Inv(k) && k.running in k.procs && s in k.sems && k.freeDescs > 0
    requires OpenDesc(k, s) == Ok(k1) && Inv(k1) && fd == k.procs[k.running].lastSemFd && fd >= 0
    requires Follows(k1, SemCloseCall(fd), k2)
    ensures exists kc :: Freed(k, s, kc, k2)
  {
    hide Inv, SemClose, OpenDesc, AfterClose, SchedInv, FamilyInv, DescInv, ReasonInv, TimerInv, PoolInv, Closed;
    OpenDescKeeps(k, s);
    EnterKeeps(k1, CALL_SEMCLOSE, [fd]);
    var k3 := Enter(k1, CALL_SEMCLOSE, [fd]).value;
    InvParts(k);
    ClosedOpened(k, s, k3);
    var d := k.nextRef;
    assert d in k3.procs[k.running].semDescs && k3.descs[d].fd == fd;
    OnlyNumber(k3, d, fd);
    CloseShape(k3, d);
    assert k2 == Return(AfterClose(k3, d), 0).value;
    assert Freed(k, s, Closed(k3, d), k2) by { hide SemsAs; FreedIs(k, s, k3, d); }
  }

  /** `k2` is `kc`, which is as `k`, with `s` freed when nothing refers to it. */
  ghost predicate Freed(k: K, s: Ref, kc: K, k2: K)
    requires s in k.sems
  {
    && SemsAs(k, kc)
    && if k.sems[s].descs == [] && k.sems[s].waitingDescs == [] && FreeSem(kc, s).Ok?
       then SemsAs(FreeSem(kc, s).value, k2) else SemsAs(kc, k2)
  }

  lemma FreedIs(k: K, s: Ref, k3: K, d: Ref)
    requires k3.running in k3.procs && d in k3.descs && k3.descs[d].sem == s && s in k3.sems && s in k.sems
    requires SemsAs(k, Closed(k3, d)) && AfterClose(k3, d).running in AfterClose(k3, d).procs
    ensures Freed(k, s, Closed(k3, d), Return(AfterClose(k3, d), 0).value)
  {
  }

  lemma OnlyNumber(k: K, d: Ref, fd: int)
    requires Inv(k) && k.running in k.procs && d in k.procs[k.running].semDescs && d in k.descs && k.descs[d].fd == fd
    ensures Lookup(k, fd) == Ok(Some(d))
  {
    hide SchedInv, ReasonInv, TimerInv, FamilyInv, PoolInv;
    LookupWorks(k, fd);
    assert ProcDescsOk(k, k.running);
    assert Lookup(k, fd).value != None;
    var e := Lookup(k, fd).value.value;
    assert e == d;
  }

  /** An existing semaphore is as before unless nothing referred to it. */
  lemma ExistingAfter(k: K, k0: K, id: int, s: Ref, k2: K)
    requires DescInv(k) && SemsAs(k, k0) && s in k.sems && k.sems[s].id == id
    requires exists kc :: Freed(k0, s, kc, k2)
    ensures SemsAs(k, k2) <==> Held(k, id)
  {
    var kc :| Freed(k0, s, kc, k2);
    assert s in kc.semList;
    assert Held(k, id) <==> k.sems[s].descs != [] || k.sems[s].waitingDescs != [];
  }

  /** A new semaphore is gone, and its block is back where it was. */
  lemma NewAfter(k: K, k0: K, id: int, count: int, k2: K)
    requires DescInv(k) && SemsAs(k, k0) && k0.nextRef == k.nextRef && Unused(k, id)
    requires k.freeSems != [] && k.freeSems[0] == []
    requires exists kc :: Freed(AllocSem(k0, id, count), k.nextRef, kc, k2)
    ensures SemsAs(k, k2) && Held(k, id)
  {
    FreshRefs(k);
    var s, ka := k.nextRef, AllocSem(k0, id, count);
    var kc :| Freed(ka, s, kc, k2);
    assert s !in k.semList;
    hide DescInv;
    WithoutLast(k.semList, s);
    assert s in kc.semList;
    assert ka.sems - {s} == k.sems;
    assert [k.freeSems[0]] + k.freeSems[1..] == k.freeSems;
  }

  /** An open and a close of the number it returned leave no trace, except on a semaphore that no process had open:
      that one is freed. Such a semaphore is the remainder of an open that failed for want of a descriptor. */
  lemma CloseUndoesOpen(k: K, id: int, count: int, k1: K, k2: K)
    requires Inv(k) && Follows(k, SemOpenCall(id, count), k1) && CanOpenSem(k, id, count)
    requires Follows(k1, SemCloseCall(k1.procs[k1.running].ret), k2)
    ensures k2.running in k2.procs && k2.procs[k2.running].ret == 0
    ensures SemsAs(k, k2) <==> Held(k, id)
  {
    hide Inv, SemOpen, SemClose, OpenDesc, ById, AllIn, HasOpen, AfterClose, Opened, Held, SemsAs, AllocSem;
    StepInv(k, SemOpenCall(id, count), k1);
    InvParts(k);
    OpenResult(k, id, count, k1);
    var fd := k1.procs[k1.running].ret;
    CloseResult(k1, fd, k2);
    EnterKeeps(k, CALL_SEMOPEN, [id, count]);
    var k0 := Enter(k, CALL_SEMOPEN, [id, count]).value;
    SemOpenShape(k0);
    FoundOrUnused(k0, id);
    match ById(k0.sems, k0.semList, id)
    case Some(s) =>
      OpenThenClose(k0, s, fd, k1, k2);
      EnteredSems(k, id, count);
      ExistingAfter(k, k0, id, s, k2);
    case None =>
      var ka := AllocSem(k0, id, count);
      AllocFacts(k0, id, count);
      AllocKeeps(k0, id, count);
      OpenThenClose(ka, k0.nextRef, fd, k1, k2);
      EnteredSems(k, id, count);
      NoStaleWaiters(k);
      NewAfter(k, k0, id, count, k2);
  }
}
