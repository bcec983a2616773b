/** The counting semaphore of the kernel on its own: a count that goes negative and a first-come list of
    blocked processes. A post that finds a blocked process gives it the permit directly. */
module HandoffSemaphore {

  type Pid = int

  datatype Sem = Sem(count: int, waiters: seq<Pid>)

  datatype Op = WaitBy(pid: Pid) | Post

  function Wait(s: Sem, p: Pid): Sem {
    var c := s.count - 1;
    Sem(c, if c < 0 then s.waiters + [p] else s.waiters)
  }

  predicate HandsOff(s: Sem) { s.count + 1 <= 0 }

  function PostTo(s: Sem): Sem {
    Sem(s.count + 1, if HandsOff(s) && s.waiters != [] then s.waiters[1..] else s.waiters)
  }

  function Apply(s: Sem, op: Op): Sem {
    match op
    case WaitBy(p) => Wait(s, p)
    case Post => PostTo(s)
  }

  function Exec(s: Sem, ops: seq<Op>): Sem {
    if ops == [] then s else Apply(Exec(s, ops[..|ops| - 1]), ops[|ops| - 1])
  }

  function Max0(n: int): nat { if n < 0 then 0 else n }

  predicate Balanced(s: Sem) { |s.waiters| == Max0(-s.count) }

  /** The processes that called wait, in call order. */
  function Requests(ops: seq<Op>): seq<Pid> {
    if ops == [] then []
    else
      var r := Requests(ops[..|ops| - 1]);
      match ops[|ops| - 1] { case WaitBy(p) => r + [p] case Post => r }
  }

  function Posts(ops: seq<Op>): nat {
    if ops == [] then 0
    else Posts(ops[..|ops| - 1]) + (if ops[|ops| - 1].Post? then 1 else 0)
  }

  /** The processes that were given a permit, in the order in which they got it: on a positive count by
      their own call, otherwise by the post that hands its permit over. */
  function Grants(s: Sem, ops: seq<Op>): seq<Pid> {
    if ops == [] then []
    else
      var g := Grants(s, ops[..|ops| - 1]);
      var before := Exec(s, ops[..|ops| - 1]);
      match ops[|ops| - 1]
      case WaitBy(p) => if before.count > 0 then g + [p] else g
      case Post => if HandsOff(before) && before.waiters != [] then g + [before.waiters[0]] else g
  }

  function Min(a: int, b: int): int { if a <= b then a else b }

  /** The textbook counting semaphore: `permits` never goes negative and `served` counts completed waits.
      A wait is announced by its caller; an announced wait completes atomically once a permit is there. */
  datatype Textbook = Textbook(permits: nat, pending: seq<Pid>)

  function TextbookStep(t: Textbook, op: Op): Textbook {
    var t1 := match op {
      case WaitBy(p) => t.(pending := t.pending + [p])
      case Post => t.(permits := t.permits + 1)
    };
    if t1.permits > 0 && t1.pending != [] then Textbook(t1.permits - 1, t1.pending[1..]) else t1
  }

  function TextbookExec(t: Textbook, ops: seq<Op>): Textbook {
    if ops == [] then t else TextbookStep(TextbookExec(t, ops[..|ops| - 1]), ops[|ops| - 1])
  }

  /** The kernel's semaphore refines the textbook one over every history of calls: its permits are
      `max(count, 0)` and its blocked processes are the pending waits, in the same order. */
  lemma {:induction false} RefinesTextbook(s: Sem, ops: seq<Op>)
    requires Balanced(s)
    ensures var e := Exec(s, ops);
            Balanced(e) &&
            TextbookExec(Textbook(Max0(s.count), s.waiters), ops) == Textbook(Max0(e.count), e.waiters)
  {
    if ops != [] {
      RefinesTextbook(s, ops[..|ops| - 1]);
    }
  }

  /** Nothing is lost and nothing overtakes: permits handed out, then the blocked processes, are together
      the callers of wait in call order. */
  lemma {:induction false} GrantsThenWaiters(n: nat, ops: seq<Op>)
    ensures Grants(Sem(n, []), ops) + Exec(Sem(n, []), ops).waiters == Requests(ops)
    ensures Balanced(Exec(Sem(n, []), ops))
  {
    if ops != [] {
      var init, last := ops[..|ops| - 1], ops[|ops| - 1];
      GrantsThenWaiters(n, init);
      var e, g := Exec(Sem(n, []), init), Grants(Sem(n, []), init);
      match last
      case WaitBy(p) =>
        if e.count > 0 {
          assert e.waiters == [];
          assert (g + [p]) + e.waiters == (g + e.waiters) + [p];
        } else {
          assert g + (e.waiters + [p]) == (g + e.waiters) + [p];
        }
      case Post =>
        if HandsOff(e) {
          assert (g + [e.waiters[0]]) + e.waiters[1..] == g + e.waiters;
        }
    }
  }

  /** From a semaphore opened with `n` permits, whatever the order of waits and posts: the count is
      `n + posts - waits`, the permits go to the first callers and to no one twice, and exactly the
      remaining callers are blocked. */
  lemma {:induction false} FirstComeFirstServed(n: nat, ops: seq<Op>)
    ensures var e := Exec(Sem(n, []), ops);
            var served := Min(|Requests(ops)|, n + Posts(ops));
            && e.count == n + Posts(ops) - |Requests(ops)|
            && Grants(Sem(n, []), ops) == Requests(ops)[..served]
            && e.waiters == Requests(ops)[served..]
  {
    CountIsHistory(Sem(n, []), ops);
    GrantsThenWaiters(n, ops);
    Halves(Grants(Sem(n, []), ops), Exec(Sem(n, []), ops).waiters, Requests(ops));
  }

  lemma Halves<T>(a: seq<T>, b: seq<T>, whole: seq<T>)
    requires a + b == whole
    ensures |a| == |whole| - |b| && a == whole[..|whole| - |b|] && b == whole[|whole| - |b|..]
  {
  }

  /** The process at position `i` of the blocked list moves up by one at each post, whatever else happens,
      and is still blocked as long as no more than `i` posts were made. */
  lemma {:induction false} PositionAfter(s: Sem, ops: seq<Op>, i: nat)
    requires Balanced(s) && i < |s.waiters| && Posts(ops) <= i
    ensures var e := Exec(s, ops);
            && Balanced(e)
            && i - Posts(ops) < |e.waiters|
            && e.waiters[i - Posts(ops)] == s.waiters[i]
  {
    if ops != [] {
      PositionAfter(s, ops[..|ops| - 1], i);
    }
  }

  /** Every step keeps the count equal to the initial one plus posts minus waits. */
  lemma {:induction false} CountIsHistory(s: Sem, ops: seq<Op>)
    ensures Exec(s, ops).count == s.count + Posts(ops) - |Requests(ops)|
  {
    if ops != [] {
      CountIsHistory(s, ops[..|ops| - 1]);
    }
  }
}
