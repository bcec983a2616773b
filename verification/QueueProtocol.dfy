/** The bounded message queue as a concurrent protocol: any number of producers and consumers, each somewhere inside
    push-back or pop-front, interleaved one instruction at a time in any order. */
module QueueProtocol {
  import opened Outcomes
  import opened Seqs
  import H = HandoffSemaphore

  type Pid = H.Pid
  /** The pointer that is passed through the queue. */
  type Msg = int

  /** The count `sem_empty` is opened with, whatever the size of the ring. */
  const CAPACITY := 4

  /** The next instruction of an operation in flight. A process that blocks in a wait has left that instruction
      behind: it goes on with the next one when a post wakes it. */
  datatype PC =
    | PushWaitEmpty(m: Msg)
    | PushWaitMutex(m: Msg)
    | PushTail(m: Msg)
    | PushStore(m: Msg, tail: nat)
    | PushInc(m: Msg)
    | PushPostMutex
    | PushPostFull
    | PopWaitFull
    | PopWaitMutex
    | PopLoad
    | PopAdvance(out: Msg)
    | PopDec(out: Msg)
    | PopPostMutex(out: Msg)
    | PopPostEmpty(out: Msg)

  datatype Which = Empty | Full | Mutex

  datatype Instr = WaitOn(w: Which) | PostOn(w: Which) | Local

  function InstrOf(c: PC): Instr {
    match c
    case PushWaitEmpty(_) => WaitOn(Empty)
    case PushWaitMutex(_) => WaitOn(Mutex)
    case PushPostMutex => PostOn(Mutex)
    case PushPostFull => PostOn(Full)
    case PopWaitFull => WaitOn(Full)
    case PopWaitMutex => WaitOn(Mutex)
    case PopPostMutex(_) => PostOn(Mutex)
    case PopPostEmpty(_) => PostOn(Empty)
    case _ => Local
  }

  /** The ring, the operations in flight, and the messages pushed and popped so far: a push counts from the moment
      it makes `size` larger, a pop from the moment it moves `front`. */
  datatype Data = Data(
    slots: seq<Msg>,
    front: nat,
    size: int,
    pc: map<Pid, PC>,
    pushed: seq<Msg>,
    popped: seq<Msg>)

  datatype Queue = Queue(empty: H.Sem, full: H.Sem, mutex: H.Sem, d: Data)

  // ---- steps

  /** The slot `i` places after `front`. */
  function Around(front: nat, i: nat, max: nat): (r: nat)
    requires max > 0
    ensures r < max
  {
    (front + i) % max
  }

  /** What the next instruction of `p` does to everything but the semaphores. */
  function Advance(d: Data, p: Pid): Data
    requires p in d.pc && d.front < |d.slots| && d.size >= 0
  {
    match d.pc[p]
    case PushWaitEmpty(m) => d.(pc := d.pc[p := PushWaitMutex(m)])
    case PushWaitMutex(m) => d.(pc := d.pc[p := PushTail(m)])
    case PushTail(m) => d.(pc := d.pc[p := PushStore(m, Around(d.front, d.size, |d.slots|))])
    case PushStore(m, t) => d.(slots := if t < |d.slots| then d.slots[t := m] else d.slots, pc := d.pc[p := PushInc(m)])
    case PushInc(m) => d.(size := d.size + 1, pushed := d.pushed + [m], pc := d.pc[p := PushPostMutex])
    case PushPostMutex => d.(pc := d.pc[p := PushPostFull])
    case PushPostFull => d.(pc := d.pc - {p})
    case PopWaitFull => d.(pc := d.pc[p := PopWaitMutex])
    case PopWaitMutex => d.(pc := d.pc[p := PopLoad])
    case PopLoad => d.(pc := d.pc[p := PopAdvance(d.slots[d.front])])
    case PopAdvance(out) =>
      d.(front := Around(d.front, 1, |d.slots|), popped := d.popped + [out], pc := d.pc[p := PopDec(out)])
    case PopDec(out) => d.(size := d.size - 1, pc := d.pc[p := PopPostMutex(out)])
    case PopPostMutex(out) => d.(pc := d.pc[p := PopPostEmpty(out)])
    case PopPostEmpty(_) => d.(pc := d.pc - {p})
  }

  function SemAfter(s: H.Sem, w: Which, i: Instr, p: Pid): H.Sem {
    if i == WaitOn(w) then H.Wait(s, p) else if i == PostOn(w) then H.PostTo(s) else s
  }

  predicate Blocked(q: Queue, p: Pid) {
    p in q.empty.waiters || p in q.full.waiters || p in q.mutex.waiters
  }

  predicate WellFormed(d: Data) { d.front < |d.slots| && d.size >= 0 }

  function Run(q: Queue, p: Pid): Queue
    requires WellFormed(q.d) && p in q.d.pc
  {
    var i := InstrOf(q.d.pc[p]);
    Queue(SemAfter(q.empty, Empty, i, p), SemAfter(q.full, Full, i, p), SemAfter(q.mutex, Mutex, i, p), Advance(q.d, p))
  }

  /** A process that has no operation in flight starts one, or one that is not blocked executes an instruction. */
  datatype Move = StartPush(p: Pid, m: Msg) | StartPop(p: Pid) | Execute(p: Pid)

  function Start(d: Data, p: Pid, c: PC): Data { d.(pc := d.pc[p := c]) }

  predicate Enabled(q: Queue, mv: Move) {
    WellFormed(q.d) && (if mv.Execute? then mv.p in q.d.pc && !Blocked(q, mv.p) else mv.p !in q.d.pc)
  }

  function Next(q: Queue, mv: Move): Queue
    requires Enabled(q, mv)
  {
    match mv
    case StartPush(p, m) => q.(d := Start(q.d, p, PushWaitEmpty(m)))
    case StartPop(p) => q.(d := Start(q.d, p, PopWaitFull))
    case Execute(p) => Run(q, p)
  }

  function Opened(slots: seq<Msg>): Queue {
    Queue(H.Sem(CAPACITY, []), H.Sem(0, []), H.Sem(1, []), Data(slots, 0, 0, map[], [], []))
  }

  // ---- counting operations by their place

  /** Takes part in `sem_empty`: from its wait to `++size`, and from `--size` to its post. */
  predicate HoldsEmpty(c: PC) {
    c.PushWaitMutex? || c.PushTail? || c.PushStore? || c.PushInc? || c.PopPostMutex? || c.PopPostEmpty?
  }

  predicate HoldsFull(c: PC) {
    c.PopWaitMutex? || c.PopLoad? || c.PopAdvance? || c.PopDec? || c.PushPostMutex? || c.PushPostFull?
  }

  predicate Inside(c: PC) {
    || c.PushTail? || c.PushStore? || c.PushInc? || c.PushPostMutex?
    || c.PopLoad? || c.PopAdvance? || c.PopDec? || c.PopPostMutex?
  }

  predicate Leaving(c: PC) { c.PopDec? }

  ghost function At(pc: map<Pid, PC>, f: PC -> bool): set<Pid> { set p | p in pc && f(pc[p]) }

  function One(b: bool): nat { if b then 1 else 0 }

  lemma AtUpdate(pc: map<Pid, PC>, p: Pid, c: PC, f: PC -> bool)
    ensures |At(pc[p := c], f)| == |At(pc, f)| - One(p in pc && f(pc[p])) + One(f(c))
  {
    var rest := At(pc, f) - {p};
    assert At(pc[p := c], f) == if f(c) then rest + {p} else rest;
    assert p in pc && f(pc[p]) ==> At(pc, f) == rest + {p};
    assert !(p in pc && f(pc[p])) ==> At(pc, f) == rest;
  }

  lemma AtRemove(pc: map<Pid, PC>, p: Pid, f: PC -> bool)
    requires p in pc
    ensures |At(pc - {p}, f)| == |At(pc, f)| - One(f(pc[p]))
  {
    var rest := At(pc, f) - {p};
    assert At(pc - {p}, f) == rest;
    assert f(pc[p]) ==> At(pc, f) == rest + {p};
    assert !f(pc[p]) ==> At(pc, f) == rest;
  }

  // ---- the invariant

  /** `n` messages from `front` on, round the ring. */
  function Window(slots: seq<Msg>, front: nat, n: nat): seq<Msg>
    requires front < |slots|
  {
    seq(n, i requires 0 <= i < n => slots[Around(front, i, |slots|)])
  }

  /** A semaphore in order: as many on its list as its count says, each once, each at an instruction where it can
      have got by waiting on it. */
  ghost predicate SemInv(s: H.Sem, pc: map<Pid, PC>, f: PC -> bool) {
    && H.Balanced(s) && NoDup(s.waiters)
    && forall p :: p in s.waiters ==> p in pc && f(pc[p])
  }

  predicate PastEmpty(c: PC) { c.PushWaitMutex? }
  predicate PastFull(c: PC) { c.PopWaitMutex? }
  predicate PastMutex(c: PC) { c.PushTail? || c.PopLoad? }

  ghost predicate Tokens(q: Queue) {
    && q.empty.count + |At(q.d.pc, HoldsEmpty)| + q.d.size == CAPACITY
    && q.full.count + |At(q.d.pc, HoldsFull)| == q.d.size
    && q.mutex.count + |At(q.d.pc, Inside)| == 1
  }

  /** What an operation has seen of the ring is still so. */
  ghost predicate Fresh(d: Data, c: PC)
    requires WellFormed(d)
  {
    var tail := Around(d.front, d.size, |d.slots|);
    && (c.PushStore? ==> c.tail == tail)
    && (c.PushInc? ==> d.slots[tail] == c.m)
    && (c.PopAdvance? ==> d.slots[d.front] == c.out)
  }

  /** The messages in the ring that no pop has taken. */
  ghost function Live(d: Data): int { d.size - |At(d.pc, Leaving)| }

  ghost predicate History(d: Data)
    requires WellFormed(d)
  {
    Live(d) >= 0 && d.pushed == d.popped + Window(d.slots, d.front, Live(d))
  }

  ghost predicate Inv(q: Queue) {
    && WellFormed(q.d) && CAPACITY <= |q.d.slots|
    && SemInv(q.empty, q.d.pc, PastEmpty)
    && SemInv(q.full, q.d.pc, PastFull)
    && SemInv(q.mutex, q.d.pc, PastMutex)
    && Tokens(q)
    && (forall p :: p in q.d.pc ==> Fresh(q.d, q.d.pc[p]))
    && History(q.d)
  }

  // ---- what the tokens say

  /** The processes at such a place that the semaphore does not hold back. */
  ghost function Granted(s: H.Sem, pc: map<Pid, PC>, f: PC -> bool): set<Pid> { At(pc, f) - Elements(s.waiters) }

  lemma GrantedCount(s: H.Sem, pc: map<Pid, PC>, f: PC -> bool, g: PC -> bool)
    requires SemInv(s, pc, f) && forall c :: f(c) ==> g(c)
    ensures |Granted(s, pc, g)| == |At(pc, g)| - |s.waiters|
  {
    var all, blocked := At(pc, g), Elements(s.waiters);
    NoDupCard(s.waiters);
    forall p | p in blocked ensures p in all { assert p in s.waiters && f(pc[p]); }
    assert all == Granted(s, pc, g) + blocked;
  }

  /** Conservation of permits, with no debts counted: free permits, operations that have been granted one and not
      yet passed it on, and messages in the ring always add up. */
  lemma TokenConservation(q: Queue)
    requires Inv(q)
    ensures H.Max0(q.empty.count) + |Granted(q.empty, q.d.pc, HoldsEmpty)| + q.d.size == CAPACITY
    ensures H.Max0(q.full.count) + |Granted(q.full, q.d.pc, HoldsFull)| == q.d.size
    ensures H.Max0(q.mutex.count) + |Granted(q.mutex, q.d.pc, Inside)| == 1
    ensures 0 <= q.d.size <= CAPACITY <= |q.d.slots|
  {
    GrantedCount(q.empty, q.d.pc, PastEmpty, HoldsEmpty);
    GrantedCount(q.full, q.d.pc, PastFull, HoldsFull);
    GrantedCount(q.mutex, q.d.pc, PastMutex, Inside);
  }

  /** Mutual exclusion: of the processes that have been let into a critical section, of either kind, no two are
      there at once. */
  lemma MutualExclusion(q: Queue, p: Pid, r: Pid)
    requires Inv(q) && p in q.d.pc && r in q.d.pc && Inside(q.d.pc[p]) && Inside(q.d.pc[r])
    requires !Blocked(q, p) && !Blocked(q, r)
    ensures p == r
  {
    TokenConservation(q);
    var g := Granted(q.mutex, q.d.pc, Inside);
    assert {p, r} <= g;
    SubsetCard({p, r}, g);
  }

  /** Those that block at a mutex have not touched the ring yet. */
  lemma Alone(q: Queue, p: Pid, r: Pid)
    requires Inv(q) && p in q.d.pc && r in q.d.pc && p != r && !Blocked(q, p) && Inside(q.d.pc[p])
    ensures !Inside(q.d.pc[r]) || PastMutex(q.d.pc[r])
  {
    if Inside(q.d.pc[r]) && !PastMutex(q.d.pc[r]) {
      NotBlocked(q, r);
      MutualExclusion(q, p, r);
    }
  }

  lemma NotBlocked(q: Queue, r: Pid)
    requires Inv(q) && r in q.d.pc
    requires !PastEmpty(q.d.pc[r]) && !PastFull(q.d.pc[r]) && !PastMutex(q.d.pc[r])
    ensures !Blocked(q, r)
  {
  }

  // ---- every move keeps the invariant

  /** One semaphore under one instruction: whoever blocks on it has just executed the wait. */
  lemma SemKept(s: H.Sem, pc: map<Pid, PC>, p: Pid, w: Which, i: Instr, pc1: map<Pid, PC>, f: PC -> bool)
    requires SemInv(s, pc, f) && p !in s.waiters
    requires forall r :: r in pc && r != p ==> r in pc1 && pc1[r] == pc[r]
    requires i == WaitOn(w) ==> p in pc1 && f(pc1[p])
    ensures SemInv(SemAfter(s, w, i, p), pc1, f)
  {
  }

  lemma CountsKept(q: Queue, p: Pid)
    requires Inv(q) && p in q.d.pc
    ensures Tokens(Run(q, p))
  {
    hide Inv, SemInv, Fresh, History, At;
    var pc, c := q.d.pc, q.d.pc[p];
    InvHead(q);
    var pc1 := Advance(q.d, p).pc;
    if c.PushPostFull? || c.PopPostEmpty? {
      AtRemove(pc, p, HoldsEmpty);
      AtRemove(pc, p, HoldsFull);
      AtRemove(pc, p, Inside);
    } else {
      AtUpdate(pc, p, pc1[p], HoldsEmpty);
      AtUpdate(pc, p, pc1[p], HoldsFull);
      AtUpdate(pc, p, pc1[p], Inside);
      assert pc1 == pc[p := pc1[p]];
    }
  }

  lemma InvHead(q: Queue)
    requires Inv(q)
    ensures WellFormed(q.d) && CAPACITY <= |q.d.slots| && Tokens(q) && History(q.d)
  {
  }

  lemma StartKeeps(q: Queue, p: Pid, c: PC)
    requires Inv(q) && p !in q.d.pc && (c.PushWaitEmpty? || c == PopWaitFull)
    ensures Inv(q.(d := Start(q.d, p, c)))
  {
    AtUpdate(q.d.pc, p, c, HoldsEmpty);
    AtUpdate(q.d.pc, p, c, HoldsFull);
    AtUpdate(q.d.pc, p, c, Inside);
    AtUpdate(q.d.pc, p, c, Leaving);
  }

  /** One step round the ring from a slot not further than a full turn away. */
  lemma AroundIs(front: nat, i: nat, max: nat)
    requires front < max && i <= max
    ensures Around(front, i, max) == if front + i < max then front + i else front + i - max
    ensures Around(front, i, max) < max
  {
    if front + i >= max {
      assert front + i == max + (front + i - max);
      assert (max + (front + i - max)) % max == (front + i - max) % max;
    }
  }

  /** The window's first message is the one at `front`, and the window behind it starts one slot on. */
  lemma WindowHead(slots: seq<Msg>, front: nat, n: nat)
    requires front < |slots| && 0 < n <= |slots|
    ensures Around(front, 1, |slots|) < |slots|
    ensures Window(slots, front, n) == [slots[front]] + Window(slots, Around(front, 1, |slots|), n - 1)
  {
    hide Around;
    AroundIs(front, 0, |slots|);
    AroundIs(front, 1, |slots|);
    var next := Around(front, 1, |slots|);
    forall i: nat | i < n - 1 ensures Around(front, i + 1, |slots|) == Around(next, i, |slots|) {
      AroundIs(front, i + 1, |slots|);
      AroundIs(next, i, |slots|);
    }
    forall i | 0 < i < n ensures Window(slots, front, n)[i] == Window(slots, next, n - 1)[i - 1] {
      assert Around(front, (i - 1) + 1, |slots|) == Around(next, i - 1, |slots|);
    }
  }

  /** A slot behind the window is not one of its slots. */
  lemma WindowFrame(slots: seq<Msg>, front: nat, n: nat, size: nat, m: Msg)
    requires front < |slots| && n <= size < |slots|
    ensures Around(front, size, |slots|) < |slots|
    ensures Window(slots[Around(front, size, |slots|) := m], front, n) == Window(slots, front, n)
  {
    hide Around;
    AroundIs(front, size, |slots|);
    forall i: nat | i < n ensures Around(front, i, |slots|) != Around(front, size, |slots|) {
      AroundIs(front, i, |slots|);
    }
  }

  /** In a critical section a producer finds room and a consumer a message. */
  lemma RoomAndStock(q: Queue, p: Pid)
    requires Inv(q) && p in q.d.pc && !Blocked(q, p)
    ensures HoldsEmpty(q.d.pc[p]) ==> q.d.size < CAPACITY
    ensures HoldsFull(q.d.pc[p]) ==> q.d.size > 0
    ensures q.d.size <= CAPACITY
  {
    TokenConservation(q);
    assert HoldsEmpty(q.d.pc[p]) ==> p in Granted(q.empty, q.d.pc, HoldsEmpty);
    assert HoldsFull(q.d.pc[p]) ==> p in Granted(q.full, q.d.pc, HoldsFull);
  }

  lemma NoneLeaving(q: Queue, p: Pid)
    requires Inv(q) && p in q.d.pc && !Blocked(q, p) && Inside(q.d.pc[p]) && !Leaving(q.d.pc[p])
    ensures At(q.d.pc, Leaving) == {}
  {
    forall r | r in At(q.d.pc, Leaving) ensures false { Alone(q, p, r); }
  }

  /** What is in the ring stays in step with what was pushed and popped. */
  lemma RingKept(q: Queue, p: Pid)
    requires Inv(q) && p in q.d.pc && !Blocked(q, p)
    ensures WellFormed(Run(q, p).d) && History(Run(q, p).d)
  {
    hide Inv, SemInv, Tokens, Fresh, At, Blocked, Window, Around;
    InvHead(q);
    FreshAt(q, p);
    RoomAndStock(q, p);
    var d, c, d1 := q.d, q.d.pc[p], Advance(q.d, p);
    if c.PushPostFull? || c.PopPostEmpty? { AtRemove(d.pc, p, Leaving); } else { AtUpdate(d.pc, p, d1.pc[p], Leaving); }
    match c
    case PushStore(m, t) => WindowFrame(d.slots, d.front, Live(d), d.size, m);
    case PushInc(m) =>
      NoneLeaving(q, p);
      WindowLast(d.slots, d.front, d.size);
    case PopAdvance(out) =>
      NoneLeaving(q, p);
      WindowHead(d.slots, d.front, d.size);
    case _ =>
  }

  lemma WindowLast(slots: seq<Msg>, front: nat, n: nat)
    requires front < |slots|
    ensures Window(slots, front, n + 1) == Window(slots, front, n) + [slots[Around(front, n, |slots|)]]
  {
  }

  lemma FreshAt(q: Queue, p: Pid)
    requires Inv(q) && p in q.d.pc
    ensures WellFormed(q.d) && Fresh(q.d, q.d.pc[p])
  {
  }

  /** What each operation has seen of the ring stays so: whoever changes it is alone there. */
  lemma FreshKept(q: Queue, p: Pid, r: Pid)
    requires Inv(q) && p in q.d.pc && !Blocked(q, p) && WellFormed(Run(q, p).d) && r in Run(q, p).d.pc
    ensures Fresh(Run(q, p).d, Run(q, p).d.pc[r])
  {
    hide Inv, SemInv, Tokens, History, At, Blocked;
    FreshAt(q, p);
    if r != p {
      FreshAt(q, r);
      if Inside(q.d.pc[p]) { Alone(q, p, r); }
    }
  }

  lemma SemsKept(q: Queue, p: Pid)
    requires Inv(q) && p in q.d.pc && !Blocked(q, p)
    ensures var q1 := Run(q, p);
            && SemInv(q1.empty, q1.d.pc, PastEmpty) && SemInv(q1.full, q1.d.pc, PastFull)
            && SemInv(q1.mutex, q1.d.pc, PastMutex)
  {
    hide SemInv, SemAfter, Tokens, Fresh, History;
    var i, pc1 := InstrOf(q.d.pc[p]), Advance(q.d, p).pc;
    SemKept(q.empty, q.d.pc, p, Empty, i, pc1, PastEmpty);
    SemKept(q.full, q.d.pc, p, Full, i, pc1, PastFull);
    SemKept(q.mutex, q.d.pc, p, Mutex, i, pc1, PastMutex);
  }

  /** Every instruction of every process, and every new operation, keeps the invariant. */
  lemma NextKeeps(q: Queue, mv: Move)
    requires Inv(q) && Enabled(q, mv)
    ensures Inv(Next(q, mv))
  {
    match mv
    case StartPush(p, m) => StartKeeps(q, p, PushWaitEmpty(m));
    case StartPop(p) => StartKeeps(q, p, PopWaitFull);
    case Execute(p) =>
      hide SemInv, SemAfter, Fresh, History, Tokens, Advance;
      SemsKept(q, p);
      CountsKept(q, p);
      RingKept(q, p);
      forall r | r in Run(q, p).d.pc ensures Fresh(Run(q, p).d, Run(q, p).d.pc[r]) { FreshKept(q, p, r); }
  }

  // ---- every reachable state

  ghost predicate Steps(qs: seq<Queue>, mvs: seq<Move>) {
    && |qs| == |mvs| + 1
    && forall i :: 0 <= i < |mvs| ==> Enabled(qs[i], mvs[i]) && qs[i + 1] == Next(qs[i], mvs[i])
  }

  lemma StepsPrefix(qs: seq<Queue>, mvs: seq<Move>)
    requires Steps(qs, mvs) && mvs != []
    ensures Steps(qs[..|mvs|], mvs[..|mvs| - 1])
    ensures var n := |mvs| - 1; Enabled(qs[n], mvs[n]) && qs[|mvs|] == Next(qs[n], mvs[n])
  {
    hide Next, Enabled;
    var n := |mvs| - 1;
    assert Enabled(qs[n], mvs[n]) && qs[n + 1] == Next(qs[n], mvs[n]);
    var qs0, mvs0 := qs[..|mvs|], mvs[..n];
    forall i | 0 <= i < |mvs0| ensures Enabled(qs0[i], mvs0[i]) && qs0[i + 1] == Next(qs0[i], mvs0[i]) {
      assert mvs0[i] == mvs[i] && qs0[i] == qs[i] && qs0[i + 1] == qs[i + 1];
    }
  }

  lemma OpenedInv(slots: seq<Msg>)
    requires CAPACITY <= |slots|
    ensures Inv(Opened(slots))
  {
    var q := Opened(slots);
    assert At(q.d.pc, HoldsEmpty) == {} && At(q.d.pc, HoldsFull) == {} && At(q.d.pc, Inside) == {};
    assert At(q.d.pc, Leaving) == {};
  }

  /** The invariant holds after any interleaving of any number of operations. */
  lemma {:induction false} ReachableInv(qs: seq<Queue>, mvs: seq<Move>)
    requires Steps(qs, mvs) && Inv(qs[0])
    ensures Inv(qs[|mvs|])
  {
    hide Inv, Next, Enabled;
    if mvs != [] {
      var n := |mvs| - 1;
      StepsPrefix(qs, mvs);
      ReachableInv(qs[..|mvs|], mvs[..n]);
      NextKeeps(qs[n], mvs[n]);
    }
  }

  // ---- the operations, told from the moves alone

  /** The operation that a process started last, and how many of its seven instructions it has executed. */
  datatype Call = NoCall | PushCall(m: Msg, done: nat) | PopCall(done: nat)

  function CallOf(mvs: seq<Move>, p: Pid): Call {
    if mvs == [] then NoCall
    else
      var mv, c := mvs[|mvs| - 1], CallOf(mvs[..|mvs| - 1], p);
      if mv.p != p then c else Moved(c, mv)
  }

  function Moved(c: Call, mv: Move): Call {
    match mv
    case StartPush(_, m) => PushCall(m, 0)
    case StartPop(_) => PopCall(0)
    case Execute(_) =>
      match c {
        case NoCall => NoCall
        case PushCall(m, n) => PushCall(m, n + 1)
        case PopCall(n) => PopCall(n + 1)
      }
  }

  /** The fifth instruction of a push makes its message part of the queue; the fourth of a pop removes one; the seventh
      ends it. */
  predicate Stores(c: Call) { c.PushCall? && c.done == 4 }
  predicate Removes(c: Call) { c.PopCall? && c.done == 3 }
  predicate Finishes(c: Call) { c.PopCall? && c.done == 6 }

  /** The arguments of the pushes, in the order in which the pushes store them. */
  function Stored(mvs: seq<Move>): seq<Msg> {
    if mvs == [] then []
    else
      var mvs0, mv := mvs[..|mvs| - 1], mvs[|mvs| - 1];
      var c := CallOf(mvs0, mv.p);
      Stored(mvs0) + (if mv.Execute? && Stores(c) then [c.m] else [])
  }

  /** How many messages have been removed. */
  function Removed(mvs: seq<Move>): nat {
    if mvs == [] then 0
    else
      var mvs0, mv := mvs[..|mvs| - 1], mvs[|mvs| - 1];
      Removed(mvs0) + One(mv.Execute? && Removes(CallOf(mvs0, mv.p)))
  }

  /** How many messages had been removed when `p` last removed one. */
  function Turn(mvs: seq<Move>, p: Pid): nat {
    if mvs == [] then 0
    else
      var mvs0, mv := mvs[..|mvs| - 1], mvs[|mvs| - 1];
      if mv == Execute(p) && Removes(CallOf(mvs0, p)) then Removed(mvs0) else Turn(mvs0, p)
  }

  /** The pops that have ended, in order, each with its process and its turn. */
  function Finished(mvs: seq<Move>): seq<(Pid, nat)> {
    if mvs == [] then []
    else
      var mvs0, mv := mvs[..|mvs| - 1], mvs[|mvs| - 1];
      Finished(mvs0) + (if mv.Execute? && Finishes(CallOf(mvs0, mv.p)) then [(mv.p, Turn(mvs0, mv.p))] else [])
  }

  /** What an operation returns when this is its last instruction and it has something to return. */
  function Result(c: PC): Option<Msg> { if c.PopPostEmpty? then Some(c.out) else None }

  /** What the pops of the run have returned, and to whom. */
  function Returned(qs: seq<Queue>, mvs: seq<Move>): seq<(Pid, Msg)>
    requires |qs| == |mvs| + 1
  {
    if mvs == [] then []
    else
      var n := |mvs| - 1;
      var pc, mv := qs[n].d.pc, mvs[n];
      var r := if mv.Execute? && mv.p in pc then Result(pc[mv.p]) else None;
      Returned(qs[..|mvs|], mvs[..n]) + (if r.Some? then [(mv.p, r.value)] else [])
  }

  /** The process is where its moves have brought it, with the message it was given. */
  predicate Agrees(c: PC, call: Call) {
    match c
    case PushWaitEmpty(m) => call == PushCall(m, 0)
    case PushWaitMutex(m) => call == PushCall(m, 1)
    case PushTail(m) => call == PushCall(m, 2)
    case PushStore(m, _) => call == PushCall(m, 3)
    case PushInc(m) => call == PushCall(m, 4)
    case PushPostMutex => call.PushCall? && call.done == 5
    case PushPostFull => call.PushCall? && call.done == 6
    case PopWaitFull => call == PopCall(0)
    case PopWaitMutex => call == PopCall(1)
    case PopLoad => call == PopCall(2)
    case PopAdvance(_) => call == PopCall(3)
    case PopDec(_) => call == PopCall(4)
    case PopPostMutex(_) => call == PopCall(5)
    case PopPostEmpty(_) => call == PopCall(6)
  }

  /** A pop that is past the removal holds the message that was the next one to be removed at its turn. */
  predicate HoldsOwn(d: Data, c: PC, turn: nat) {
    c.PopDec? || c.PopPostMutex? || c.PopPostEmpty? ==> turn < |d.popped| && d.popped[turn] == c.out
  }

  ghost predicate Traced(d: Data, mvs: seq<Move>) {
    && (forall p :: p in d.pc ==> Agrees(d.pc[p], CallOf(mvs, p)) && HoldsOwn(d, d.pc[p], Turn(mvs, p)))
    && d.pushed == Stored(mvs) && |d.popped| == Removed(mvs)
  }

  lemma LastMove(mvs: seq<Move>, mv: Move, p: Pid)
    ensures var c, mvs1 := CallOf(mvs, mv.p), mvs + [mv];
            && CallOf(mvs1, p) == (if mv.p == p then Moved(c, mv) else CallOf(mvs, p))
            && Stored(mvs1) == Stored(mvs) + (if mv.Execute? && Stores(c) then [c.m] else [])
            && Removed(mvs1) == Removed(mvs) + One(mv.Execute? && Removes(c))
            && Turn(mvs1, p) == (if mv == Execute(p) && Removes(c) then Removed(mvs) else Turn(mvs, p))
            && Finished(mvs1) ==
               Finished(mvs) + (if mv.Execute? && Finishes(c) then [(mv.p, Turn(mvs, mv.p))] else [])
  {
    assert (mvs + [mv])[..|mvs|] == mvs;
  }

  lemma TracedStep(q: Queue, mvs: seq<Move>, mv: Move)
    requires Enabled(q, mv) && Traced(q.d, mvs)
    ensures Traced(Next(q, mv).d, mvs + [mv])
  {
    hide CallOf, Stored, Removed, Turn, Finished, Blocked, SemAfter;
    var d1 := Next(q, mv).d;
    LastMove(mvs, mv, mv.p);
    forall p | p in d1.pc
      ensures Agrees(d1.pc[p], CallOf(mvs + [mv], p)) && HoldsOwn(d1, d1.pc[p], Turn(mvs + [mv], p))
    {
      LastMove(mvs, mv, p);
    }
  }

  /** Along every run from the opened queue, every operation in flight is where its moves have brought it and carries
      the message it was given, or the one that its turn gave it. */
  lemma {:induction false} RunTraced(qs: seq<Queue>, mvs: seq<Move>, slots: seq<Msg>)
    requires Steps(qs, mvs) && qs[0] == Opened(slots)
    ensures Traced(qs[|mvs|].d, mvs)
  {
    hide Next, Enabled, Traced;
    if mvs == [] {
      assert Traced(Opened(slots).d, []) by { NothingTraced(slots); }
    } else {
      var n := |mvs| - 1;
      StepsPrefix(qs, mvs);
      RunTraced(qs[..|mvs|], mvs[..n], slots);
      TracedStep(qs[n], mvs[..n], mvs[n]);
      assert mvs[..n] + [mvs[n]] == mvs;
    }
  }

  lemma NothingTraced(slots: seq<Msg>)
    ensures Traced(Opened(slots).d, [])
  {
  }

  /** First in, first out, over every run from the freshly opened queue: the slots from `front` on, round the ring, hold
      exactly the messages that pushes were given and have stored, in that order, less as many from the front as have
      been removed. */
  lemma FirstInFirstOut(qs: seq<Queue>, mvs: seq<Move>, slots: seq<Msg>)
    requires Steps(qs, mvs) && CAPACITY <= |slots| && qs[0] == Opened(slots)
    ensures var d := qs[|mvs|].d;
            && WellFormed(d) && Live(d) >= 0 && Removed(mvs) <= |Stored(mvs)|
            && Window(d.slots, d.front, Live(d)) == Stored(mvs)[Removed(mvs)..]
            && (At(d.pc, Leaving) == {} ==> Live(d) == d.size)
            && d.size <= CAPACITY
  {
    hide Inv, Next, Enabled;
    OpenedInv(slots);
    ReachableInv(qs, mvs);
    RunTraced(qs, mvs, slots);
    InvHead(qs[|mvs|]);
    TokenConservation(qs[|mvs|]);
  }

  /** What every pop returns: the pop whose removal was the n-th returns the argument of the push that was the n-th to
      store, to the process that called it. */
  lemma {:induction false} PopsReturn(qs: seq<Queue>, mvs: seq<Move>, slots: seq<Msg>)
    requires Steps(qs, mvs) && CAPACITY <= |slots| && qs[0] == Opened(slots)
    ensures var rs, fs := Returned(qs, mvs), Finished(mvs);
            && |rs| == |fs|
            && forall i :: 0 <= i < |fs| ==>
                 && rs[i].0 == fs[i].0
                 && fs[i].1 < |Stored(mvs)| && rs[i].1 == Stored(mvs)[fs[i].1]
  {
    hide Next, Enabled, Traced, CallOf, Turn, Removed, Live, Window;
    if mvs != [] {
      var n := |mvs| - 1;
      var mvs0, mv := mvs[..n], mvs[n];
      StepsPrefix(qs, mvs);
      PopsReturn(qs[..|mvs|], mvs0, slots);
      assert mvs0 + [mv] == mvs;
      LastMove(mvs0, mv, mv.p);
      ReturnsOwn(qs[..|mvs|], mvs0, slots, mv);
      assert qs[..|mvs|][n] == qs[n];
    }
  }

  /** A pop that ends returns the message of its turn. */
  lemma ReturnsOwn(qs: seq<Queue>, mvs: seq<Move>, slots: seq<Msg>, mv: Move)
    requires Steps(qs, mvs) && CAPACITY <= |slots| && qs[0] == Opened(slots) && Enabled(qs[|mvs|], mv)
    ensures var pc := qs[|mvs|].d.pc;
            && (mv.Execute? ==> mv.p in pc)
            && (mv.Execute? && Finishes(CallOf(mvs, mv.p)) <==> mv.Execute? && Result(pc[mv.p]).Some?)
            && (mv.Execute? && Result(pc[mv.p]).Some? ==>
                  var t := Turn(mvs, mv.p); t < |Stored(mvs)| && Result(pc[mv.p]).value == Stored(mvs)[t])
  {
    hide Inv, Next, Window;
    RunTraced(qs, mvs, slots);
    OpenedInv(slots);
    ReachableInv(qs, mvs);
    InvHead(qs[|mvs|]);
    if mv.Execute? { assert Agrees(qs[|mvs|].d.pc[mv.p], CallOf(mvs, mv.p)); }
  }

  /** No message is returned twice: pops that have ended, and pops that are past their removal, all had different
      turns. */
  ghost predicate TurnsDiffer(mvs: seq<Move>) {
    && (forall i, j :: 0 <= i < j < |Finished(mvs)| ==> Finished(mvs)[i].1 != Finished(mvs)[j].1)
    && (forall i :: 0 <= i < |Finished(mvs)| ==> Finished(mvs)[i].1 < Removed(mvs))
    && (forall p :: HasTurn(mvs, p) ==>
          && Turn(mvs, p) < Removed(mvs)
          && (forall i :: 0 <= i < |Finished(mvs)| ==> Finished(mvs)[i].1 != Turn(mvs, p))
          && (forall r :: HasTurn(mvs, r) && r != p ==> Turn(mvs, r) != Turn(mvs, p)))
  }

  predicate HasTurn(mvs: seq<Move>, p: Pid) {
    var c := CallOf(mvs, p); c.PopCall? && 4 <= c.done <= 6
  }

  lemma {:induction false} DeliveredOnce(mvs: seq<Move>)
    ensures TurnsDiffer(mvs)
  {
    if mvs != [] {
      var mvs0, mv := mvs[..|mvs| - 1], mvs[|mvs| - 1];
      DeliveredOnce(mvs0);
      TurnsStep(mvs0, mv);
      assert mvs0 + [mv] == mvs;
    }
  }

  lemma TurnsStep(mvs: seq<Move>, mv: Move)
    requires TurnsDiffer(mvs)
    ensures TurnsDiffer(mvs + [mv])
  {
    hide CallOf, Stored, Removed, Turn, Finished;
    LastMove(mvs, mv, mv.p);
    forall p | HasTurn(mvs + [mv], p)
      ensures if HasTurn(mvs, p) then Turn(mvs + [mv], p) == Turn(mvs, p)
              else mv == Execute(p) && Removes(CallOf(mvs, p)) && Turn(mvs + [mv], p) == Removed(mvs)
      ensures mv.Execute? && Finishes(CallOf(mvs, mv.p)) ==> mv.p != p
    {
      LastMove(mvs, mv, p);
    }
  }

  /** The slot a producer is about to fill holds no message of the queue, and the one a consumer is about to read
      holds the oldest. */
  lemma NoOverwriteNoUnderflow(q: Queue, p: Pid)
    requires Inv(q) && p in q.d.pc && !Blocked(q, p)
    ensures var c, d := q.d.pc[p], q.d;
            && (c.PushStore? ==>
                  d.size < CAPACITY && c.tail < |d.slots|
                  && forall i: nat :: i < d.size ==> Around(d.front, i, |d.slots|) != c.tail)
            && (c.PopLoad? ==>
                  d.size > 0 && |d.popped| < |d.pushed| && d.slots[d.front] == d.pushed[|d.popped|])
            && (c.PopAdvance? ==> |d.popped| < |d.pushed| && c.out == d.pushed[|d.popped|])
  {
    hide Inv, SemInv, Tokens, At, Blocked, Around;
    InvHead(q);
    FreshAt(q, p);
    RoomAndStock(q, p);
    var c, d := q.d.pc[p], q.d;
    match c
    case PushStore(m, t) =>
      AroundIs(d.front, d.size, |d.slots|);
      forall i: nat | i < d.size ensures Around(d.front, i, |d.slots|) != t { AroundIs(d.front, i, |d.slots|); }
    case PopLoad =>
      NoneLeaving(q, p);
      AroundIs(d.front, 0, |d.slots|);
    case PopAdvance(_) =>
      NoneLeaving(q, p);
      AroundIs(d.front, 0, |d.slots|);
    case _ =>
  }

  /** Deadlock freedom: when every operation in flight is blocked, either all are producers waiting for room in a
      queue that holds `CAPACITY` messages, or all are consumers waiting for a message in an empty one. */
  lemma DeadlockFree(q: Queue, some: Pid)
    requires Inv(q) && some in q.d.pc && forall p :: p in q.d.pc ==> Blocked(q, p)
    ensures || (q.d.size == CAPACITY && forall p :: p in q.d.pc ==> p in q.empty.waiters && q.d.pc[p].PushWaitMutex?)
            || (q.d.size == 0 && forall p :: p in q.d.pc ==> p in q.full.waiters && q.d.pc[p].PopWaitMutex?)
  {
    TokenConservation(q);
    var pc := q.d.pc;
    forall p | p in pc ensures p !in Granted(q.mutex, pc, Inside) { assert Blocked(q, p); }
    assert Granted(q.mutex, pc, Inside) == {};
    assert q.mutex.waiters == [];
    forall p | p in pc ensures p in q.empty.waiters || p in q.full.waiters { assert Blocked(q, p); }
    forall p | p in pc ensures p !in Granted(q.empty, pc, HoldsEmpty) && p !in Granted(q.full, pc, HoldsFull) {}
    assert Granted(q.empty, pc, HoldsEmpty) == {} && Granted(q.full, pc, HoldsFull) == {};
    assert q.empty.waiters != [] ==> q.d.size == CAPACITY;
    assert q.full.waiters != [] ==> q.d.size == 0;
    assert some in q.empty.waiters || some in q.full.waiters;
  }

  // ---- why the ring must have `CAPACITY` slots

  /** Nobody is in the queue and `sem_empty` has a permit. */
  ghost predicate Quiet(q: Queue, p: Pid) {
    && WellFormed(q.d) && p !in q.d.pc && q.empty.count > 0 && q.mutex.count == 1
    && q.empty.waiters == [] && q.full.waiters == [] && q.mutex.waiters == []
  }

  lemma StepOn(qs: seq<Queue>, mvs: seq<Move>, mv: Move) returns (qs1: seq<Queue>, mvs1: seq<Move>)
    requires Steps(qs, mvs) && Enabled(qs[|mvs|], mv)
    ensures Steps(qs1, mvs1) && qs1[0] == qs[0] && qs1[|mvs1|] == Next(qs[|mvs|], mv)
  {
    hide Enabled, Next;
    qs1, mvs1 := qs + [Next(qs[|mvs|], mv)], mvs + [mv];
  }

  /** One undisturbed push makes `size` larger by one, whether or not the ring has room. */
  lemma PushAlone(qs: seq<Queue>, mvs: seq<Move>, p: Pid, m: Msg) returns (qs1: seq<Queue>, mvs1: seq<Move>)
    requires Steps(qs, mvs) && Quiet(qs[|mvs|], p)
    ensures Steps(qs1, mvs1) && qs1[0] == qs[0]
    ensures var q, q1 := qs[|mvs|], qs1[|mvs1|];
            && WellFormed(q1.d) && p !in q1.d.pc && |q1.d.slots| == |q.d.slots| && q1.d.size == q.d.size + 1
            && q1.empty == H.Sem(q.empty.count - 1, []) && q1.mutex == q.mutex && q1.full.waiters == []
  {
    hide Steps;
    qs1, mvs1 := StepOn(qs, mvs, StartPush(p, m));
    qs1, mvs1 := StepOn(qs1, mvs1, Execute(p));
    qs1, mvs1 := StepOn(qs1, mvs1, Execute(p));
    qs1, mvs1 := StepOn(qs1, mvs1, Execute(p));
    qs1, mvs1 := StepOn(qs1, mvs1, Execute(p));
    qs1, mvs1 := StepOn(qs1, mvs1, Execute(p));
    qs1, mvs1 := StepOn(qs1, mvs1, Execute(p));
    qs1, mvs1 := StepOn(qs1, mvs1, Execute(p));
  }

  lemma {:induction false} PushesAlone(slots: seq<Msg>, p: Pid, m: Msg, n: nat) returns (qs: seq<Queue>, mvs: seq<Move>)
    requires slots != [] && n <= CAPACITY
    ensures Steps(qs, mvs) && qs[0] == Opened(slots)
    ensures var q := qs[|mvs|];
            && WellFormed(q.d) && p !in q.d.pc && |q.d.slots| == |slots| && q.d.size == n
            && q.empty == H.Sem(CAPACITY - n, []) && q.mutex == H.Sem(1, []) && q.full.waiters == []
  {
    if n == 0 {
      qs, mvs := [Opened(slots)], [];
    } else {
      qs, mvs := PushesAlone(slots, p, m, n - 1);
      qs, mvs := PushAlone(qs, mvs, p, m);
    }
  }

  /** The permits protect the ring exactly when it has at least `CAPACITY` slots, whatever size was asked for: then
      no run ever holds more messages than slots, and otherwise one process pushing alone already does. */
  lemma PermitsFitRing(slots: seq<Msg>)
    requires slots != []
    ensures CAPACITY <= |slots| <==>
            forall qs: seq<Queue>, mvs: seq<Move> :: Steps(qs, mvs) && qs[0] == Opened(slots) ==>
              qs[|mvs|].d.size <= |slots|
  {
    hide Inv, Next, Enabled;
    if CAPACITY <= |slots| {
      forall qs: seq<Queue>, mvs: seq<Move> | Steps(qs, mvs) && qs[0] == Opened(slots)
        ensures qs[|mvs|].d.size <= |slots|
      {
        FirstInFirstOut(qs, mvs, slots);
      }
    } else {
      var qs, mvs := PushesAlone(slots, 0, 0, CAPACITY);
      assert qs[|mvs|].d.size > |slots|;
    }
  }
}
