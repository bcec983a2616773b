/** The queue's code running on the kernel object: processes execute push-back and pop-front on the shared array, and
    their waits and posts are system calls. Every method is one step of the machine of `QueueSystems`. */
module QueueMachines {
  import opened Outcomes
  import opened KernelState
  import opened KernelInvariant
  import opened KernelSteps
  import opened KernelRuns
  import opened Kernels
  import opened QueueSystems
  import opened MessageQueues
  import Q = QueueProtocol

  class QueueMachine {
    const kernel: Kernel
    const queue: FixedSizeMessageQueue
    /** Where each process inside push-back or pop-front is, with its local variables. */
    var pcs: map<Pid, Q.PC>
    ghost var pushed: seq<Q.Msg>
    ghost var popped: seq<Q.Msg>
    ghost const c: Setup

    ghost function Ring(): Q.Data
      requires queue.frontIdx >= 0
      reads this, queue, queue.messages
    {
      Q.Data(queue.messages[..], queue.frontIdx, queue.size, pcs, pushed, popped)
    }

    ghost function State(): Sys
      requires queue.frontIdx >= 0
      reads this, kernel, queue, queue.messages
    {
      Sys(kernel.State(), Ring())
    }

    ghost predicate Valid()
      reads this, kernel, queue, queue.messages
    {
      && queue.frontIdx >= 0 && SysInv(State(), c)
      && kernel.running in kernel.procs
      && c.fdEmpty == queue.semEmpty && c.fdFull == queue.semFull && c.fdMutex == queue.mutex
      && queue.sizeMax == queue.messages.Length
    }

    /** A machine around a queue that has been initialised, with nobody in it. */
    constructor (kernel: Kernel, queue: FixedSizeMessageQueue, ghost c: Setup)
      requires kernel.Valid() && queue.frontIdx == 0 && queue.size == 0 && queue.sizeMax == queue.messages.Length
      requires SysInv(Fresh(kernel.State(), queue.messages[..]), c)
      requires c.fdEmpty == queue.semEmpty && c.fdFull == queue.semFull && c.fdMutex == queue.mutex
      ensures Valid() && State() == Fresh(kernel.State(), queue.messages[..])
      ensures this.kernel == kernel && this.queue == queue && this.c == c
    {
      this.kernel, this.queue, this.c := kernel, queue, c;
      pcs, pushed, popped := map[], [], [];
    }

    /** The running process calls push-back or pop-front. */
    method BeginPush(m: Q.Msg)
      requires Valid() && HasQueue(kernel.State(), c, kernel.running) && kernel.running !in pcs
      modifies this`pcs
      ensures Valid() && SysStep(old(State()), QueueSystems.BeginPush(m), State(), c)
    {
      hide SysInv, HasQueue;
      ghost var x := State();
      pcs := pcs[kernel.running := Q.PushWaitEmpty(m)];
      StepRefines(x, QueueSystems.BeginPush(m), State(), c);
    }

    method BeginPop()
      requires Valid() && HasQueue(kernel.State(), c, kernel.running) && kernel.running !in pcs
      modifies this`pcs
      ensures Valid() && SysStep(old(State()), QueueSystems.BeginPop, State(), c)
    {
      hide SysInv, HasQueue;
      ghost var x := State();
      pcs := pcs[kernel.running := Q.PopWaitFull];
      StepRefines(x, QueueSystems.BeginPop, State(), c);
    }

    /** The running process executes its next instruction. A system call must not fault; with an idle process none
        does. The last instruction of pop-front gives its result. */
    method Execute() returns (result: Option<Q.Msg>)
      requires Valid() && kernel.running in pcs && CanInstruct(State(), c)
      modifies this, kernel, queue, queue.messages
      ensures Valid() && SysStep(old(State()), Instruct, State(), c)
      ensures result == Q.Result(old(pcs[kernel.running]))
      ensures queue.messages == old(queue.messages)
    {
      hide SysInv, SysStep, Step;
      result := None;
      if Q.InstrOf(pcs[kernel.running]).Local? {
        ExecuteLocal();
      } else {
        result := ExecuteCall();
      }
    }

    method ExecuteLocal()
      requires Valid() && kernel.running in pcs && Q.InstrOf(pcs[kernel.running]).Local?
      modifies this, queue, queue.messages
      ensures Valid() && SysStep(old(State()), Instruct, State(), c)
      ensures queue.messages == old(queue.messages)
    {
      hide SysInv, Step, HasQueue;
      ghost var x := State();
      WellFormedHere(x, c);
      if pcs[kernel.running].PushStore? { StoreInRange(x, c); }
      UseRing(kernel.running);
      StepRefines(x, Instruct, State(), c);
    }

    /** The instructions between the system calls, on the shared array and the process's own variables. */
    method UseRing(p: Pid)
      requires p in pcs && Q.InstrOf(pcs[p]).Local? && queue.frontIdx >= 0 && Q.WellFormed(Ring())
      requires queue.sizeMax == queue.messages.Length
      requires pcs[p].PushStore? ==> pcs[p].tail < queue.messages.Length
      modifies this, queue`size, queue`frontIdx, queue.messages
      ensures queue.frontIdx >= 0 && Ring() == Q.Advance(old(Ring()), p)
    {
      match pcs[p]
      case PushTail(m) =>
        var tailIdx := queue.TailIdx();
        pcs := pcs[p := Q.PushStore(m, tailIdx)];
      case PushStore(m, tail) =>
        queue.Store(tail, m);
        pcs := pcs[p := Q.PushInc(m)];
      case PushInc(m) =>
        queue.Grow();
        pushed := pushed + [m];
        pcs := pcs[p := Q.PushPostMutex];
      case PopLoad =>
        var messageOut := queue.Load();
        pcs := pcs[p := Q.PopAdvance(messageOut)];
      case PopAdvance(out) =>
        queue.MoveFront();
        popped := popped + [out];
        pcs := pcs[p := Q.PopDec(out)];
      case PopDec(out) =>
        queue.Shrink();
        pcs := pcs[p := Q.PopPostMutex(out)];
    }

    method ExecuteCall() returns (result: Option<Q.Msg>)
      requires Valid() && kernel.running in pcs && !Q.InstrOf(pcs[kernel.running]).Local?
      requires CanInstruct(State(), c)
      modifies this, kernel
      ensures Valid() && SysStep(old(State()), Instruct, State(), c)
      ensures result == Q.Result(old(pcs[kernel.running]))
    {
      hide SysInv, Step, HasQueue;
      ghost var x := State();
      WellFormedHere(x, c);
      var p := kernel.running;
      var e := NextCall();
      Call(e);
      result := NextPlace(p);
      StepRefines(x, Instruct, State(), c);
    }

    /** The system call at which the running process is, on the numbers in the queue object. */
    method NextCall() returns (e: Event)
      requires Valid() && kernel.running in pcs && !Q.InstrOf(pcs[kernel.running]).Local?
      ensures e == EventOf(c, Q.InstrOf(pcs[kernel.running]))
    {
      hide SysInv;
      match pcs[kernel.running]
      case PushWaitEmpty(_) => return SemWaitCall(queue.semEmpty);
      case PushWaitMutex(_) => return SemWaitCall(queue.mutex);
      case PushPostMutex => return SemPostCall(queue.mutex);
      case PushPostFull => return SemPostCall(queue.semFull);
      case PopWaitFull => return SemWaitCall(queue.semFull);
      case PopWaitMutex => return SemWaitCall(queue.mutex);
      case PopPostMutex(_) => return SemPostCall(queue.mutex);
      case PopPostEmpty(_) => return SemPostCall(queue.semEmpty);
    }

    /** `p` is past the system call, whether it blocks in it or not; if that was the end of pop-front, it returns. */
    method NextPlace(p: Pid) returns (result: Option<Q.Msg>)
      requires p in pcs && !Q.InstrOf(pcs[p]).Local? && queue.frontIdx >= 0 && Q.WellFormed(Ring())
      modifies this`pcs
      ensures queue.frontIdx >= 0 && Ring() == Q.Advance(old(Ring()), p)
      ensures result == Q.Result(old(pcs[p]))
    {
      result := None;
      match pcs[p]
      case PushWaitEmpty(m) => pcs := pcs[p := Q.PushWaitMutex(m)];
      case PushWaitMutex(m) => pcs := pcs[p := Q.PushTail(m)];
      case PushPostMutex => pcs := pcs[p := Q.PushPostFull];
      case PushPostFull => pcs := pcs - {p};
      case PopWaitFull => pcs := pcs[p := Q.PopWaitMutex];
      case PopWaitMutex => pcs := pcs[p := Q.PopLoad];
      case PopPostMutex(out) => pcs := pcs[p := Q.PopPostEmpty(out)];
      case PopPostEmpty(out) =>
        result := Some(out);
        pcs := pcs - {p};
    }

    method Call(e: Event)
      requires kernel.Valid() && (e.SemWaitCall? || e.SemPostCall?) && Step(kernel.State(), e).Ok?
      modifies kernel
      ensures kernel.Valid() && Follows(old(kernel.State()), e, kernel.State())
    {
      hide Inv, Step;
      kernel.Handle(e);
    }

    /** Anything else happens on the kernel. */
    method Elsewhere(e: Event)
      requires Valid() && Foreign(State(), e, c) && (e.ExitCall? ==> CleanExit(kernel.State()))
      requires Step(kernel.State(), e).Ok?
      requires (forall p :: p !in pcs) ==> Present(Step(kernel.State(), e).value, c)
      modifies kernel
      ensures SysInv(State(), c) && SysStep(old(State()), Other(e), State(), c)
      ensures !(e.SleepCall? && old(kernel.ready) == []) ==> Valid()
    {
      hide SysInv, Step, Foreign;
      ghost var x := State();
      KernelInv(x, c);
      kernel.Handle(e);
      StepRefines(x, Other(e), State(), c);
    }
  }

  /** The running process's next instruction, if it is a system call, does not fault. */
  ghost predicate CanInstruct(x: Sys, c: Setup)
    requires x.k.running in x.d.pc
  {
    var i := Q.InstrOf(x.d.pc[x.k.running]);
    i.Local? || Step(x.k, EventOf(c, i)).Ok?
  }

  lemma KernelInv(x: Sys, c: Setup)
    requires SysInv(x, c)
    ensures Inv(x.k)
  {
    hide Inv, Q.Inv, HasQueue;
  }

  lemma WellFormedHere(x: Sys, c: Setup)
    requires SysInv(x, c)
    ensures Inv(x.k) && Q.WellFormed(x.d)
  {
    hide Inv, HasQueue;
  }

  lemma StoreInRange(x: Sys, c: Setup)
    requires SysInv(x, c) && x.k.running in x.k.procs && x.k.running in x.d.pc && x.d.pc[x.k.running].PushStore?
    ensures x.d.pc[x.k.running].tail < |x.d.slots|
  {
    hide Inv, Q.Inv, HasQueue;
    RunningFree(x, c);
    Q.NoOverwriteNoUnderflow(Seen(x, c), x.k.running);
  }
}
