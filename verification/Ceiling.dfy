/** The priority-ceiling protocol: with ceiling mutexes only, and as long as nobody
    suspends, blocks, lowers or rotates a task that holds one, no task ever has to wait
    for a mutex. */
module Ceiling {
  import opened Basics
  import opened OrderedList
  import opened TimeEvent
  import opened KernelSpec
  import opened KernelInv
  import opened KernelCalls
  import opened Runs
  import opened Ticks

  ghost predicate AllCeiling(c: Cfg) {
    forall m {:trigger c.IsMtx(m)} :: c.IsMtx(m) ==> c.Ceil(m).Some?
  }

  predicate Holds(held: seq<seq<nat>>, t: nat) {
    t < |held| && held[t] != []
  }

  // ----- The invariant of the protocol --------------------------------------

  /** A ready task ahead of a holder has a base priority above the holder's current one. */
  ghost predicate Guarded(rq: seq<nat>, t: Tasks) {
    forall i, j {:trigger rq[i], rq[j]} :: 0 <= i < j < |rq| && Holds(t.held, rq[j]) ==>
      Pri(t.bpri, rq[i]) < Pri(t.pri, rq[j])
  }

  /** The running task `r` has a base priority above every other holder's current one,
      and while it cannot be preempted it is guarded itself. */
  ghost predicate RunGuarded(rq: seq<nat>, t: Tasks, r: nat, dsp: bool) {
    && (forall h {:trigger Holds(t.held, h)} :: Holds(t.held, h) && h != r ==> Pri(t.bpri, r) < Pri(t.pri, h))
    && (!dsp ==> GuardedAt(rq, t, r))
  }

  ghost predicate GuardedAt(rq: seq<nat>, t: Tasks, r: nat) {
    forall i, j {:trigger rq[i], rq[j]} :: 0 <= i < j < |rq| && rq[j] == r ==> Pri(t.bpri, rq[i]) < Pri(t.pri, r)
  }

  /** Holders are ready, and nobody waits for a mutex. */
  ghost predicate NoWaits(k: K) {
    && (forall t: nat {:trigger Holds(k.t.held, t)} :: Holds(k.t.held, t) && t < |k.t.tstat| ==> k.t.tstat[t].Runnable?)
    && (forall m: nat {:trigger k.q.wq[m]} :: m < |k.q.wq| && k.cfg.IsMtx(m) ==> k.q.wq[m] == [])
  }

  /** What holds of all tasks, even between the parts of a step. */
  ghost predicate Quiet(k: K) {
    AllCeiling(k.cfg) && NoWaits(k) && Guarded(k.q.rq, k.t)
  }

  /** What holds of the running task. */
  ghost predicate Mine(k: K) {
    k.c.run.Some? ==>
      && k.c.run.value < |k.t.tstat| && k.t.tstat[k.c.run.value].Runnable?
      && RunGuarded(k.q.rq, k.t, k.c.run.value, Dsp(k))
  }

  ghost predicate CeilInv(k: K) {
    Quiet(k) && Mine(k)
  }

  // ----- Insertions and removals --------------------------------------------

  lemma GuardedRemove(rq: seq<nat>, t: Tasks, x: nat)
    requires Guarded(rq, t)
    ensures Guarded(Remove(rq, x), t)
  {
    if x in rq {
      var i := RemoveSplit(rq, x);
    }
  }

  lemma GuardedAtRemove(rq: seq<nat>, t: Tasks, x: nat, r: nat)
    requires GuardedAt(rq, t, r)
    ensures GuardedAt(Remove(rq, x), t, r)
  {
    if x in rq {
      var i := RemoveSplit(rq, x);
    }
  }

  /** Task `x` may come in at position `k` if its base priority is above the holders behind
      it, and, should it be a holder itself, the base priorities before it are above its own. */
  lemma GuardedJoin(rq: seq<nat>, t: Tasks, x: nat, k: nat)
    requires Guarded(rq, t) && k <= |rq|
    requires forall m :: k <= m < |rq| && Holds(t.held, rq[m]) ==> Pri(t.bpri, x) < Pri(t.pri, rq[m])
    requires Holds(t.held, x) ==> forall m :: 0 <= m < k ==> Pri(t.bpri, rq[m]) < Pri(t.pri, x)
    ensures Guarded(rq[..k] + [x] + rq[k..], t)
  {
    hide Holds, Pri;
    var q := rq[..k] + [x] + rq[k..];
    forall i, j | 0 <= i < j < |q| && Holds(t.held, q[j])
      ensures Pri(t.bpri, q[i]) < Pri(t.pri, q[j])
    {
      var i', j' := if i < k then i else i - 1, if j < k then j else j - 1;
      assert i != k ==> q[i] == rq[i'];
      assert j != k ==> q[j] == rq[j'];
    }
  }

  lemma GuardedAtJoin(rq: seq<nat>, t: Tasks, x: nat, k: nat, r: nat)
    requires GuardedAt(rq, t, r) && k <= |rq| && x != r
    requires forall m :: k <= m < |rq| && rq[m] == r ==> Pri(t.bpri, x) < Pri(t.pri, r)
    ensures GuardedAt(rq[..k] + [x] + rq[k..], t, r)
  {
    hide Pri;
    var q := rq[..k] + [x] + rq[k..];
    forall i, j | 0 <= i < j < |q| && q[j] == r
      ensures Pri(t.bpri, q[i]) < Pri(t.pri, r)
    {
      var i', j' := if i < k then i else i - 1, if j < k then j else j - 1;
      assert i != k ==> q[i] == rq[i'];
      assert q[j] == rq[j'];
    }
  }

  /** A task without a mutex may join behind its equals. */
  lemma GuardedInsertLast(rq: seq<nat>, t: Tasks, x: nat)
    requires Guarded(rq, t) && Sorted(rq, t.pri) && !Holds(t.held, x) && Pri(t.bpri, x) == Pri(t.pri, x)
    ensures Guarded(InsertLast(rq, t.pri, x), t)
  {
    hide InsertLast, Guarded, Holds, Pri;
    var k := InsertLastSplit(rq, t.pri, x);
    GuardedJoin(rq, t, x, k);
  }

  lemma GuardedAtInsertLast(rq: seq<nat>, t: Tasks, x: nat, r: nat)
    requires GuardedAt(rq, t, r) && Sorted(rq, t.pri) && Pri(t.bpri, x) == Pri(t.pri, x) && x != r
    ensures GuardedAt(InsertLast(rq, t.pri, x), t, r)
  {
    hide InsertLast, GuardedAt, Pri;
    var k := InsertLastSplit(rq, t.pri, x);
    GuardedAtJoin(rq, t, x, k, r);
  }

  /** A task may join ahead of its equals if its base priority is above every holder it
      gets ahead of, and every task it stays behind has a base priority above its own. */
  lemma GuardedInsertFirst(rq: seq<nat>, t: Tasks, x: nat)
    requires Guarded(rq, t) && Sorted(rq, t.pri)
    requires forall y :: y in rq && Pri(t.pri, y) < Pri(t.pri, x) ==> Pri(t.bpri, y) < Pri(t.pri, x)
    requires forall h :: h in rq && Holds(t.held, h) && Pri(t.pri, h) >= Pri(t.pri, x) ==> Pri(t.bpri, x) < Pri(t.pri, h)
    ensures Guarded(InsertFirst(rq, t.pri, x), t)
  {
    hide InsertFirst, Guarded, Holds, Pri;
    var k := InsertFirstSplit(rq, t.pri, x);
    assert forall m :: 0 <= m < |rq| ==> rq[m] in rq;
    GuardedJoin(rq, t, x, k);
  }

  lemma InsertedGuarded(rq: seq<nat>, t: Tasks, x: nat)
    requires Sorted(rq, t.pri) && x !in rq
    requires forall y :: y in rq && Pri(t.pri, y) < Pri(t.pri, x) ==> Pri(t.bpri, y) < Pri(t.pri, x)
    ensures GuardedAt(InsertFirst(rq, t.pri, x), t, x)
  {
    hide InsertFirst, Sorted, Pri;
    var k := InsertFirstSplit(rq, t.pri, x);
    var q := rq[..k] + [x] + rq[k..];
    assert forall j :: k < j < |q| ==> q[j] == rq[j - 1] && rq[j - 1] in rq;
    forall i | 0 <= i < k
      ensures Pri(t.bpri, q[i]) < Pri(t.pri, x)
    {
      assert q[i] == rq[i] && rq[i] in rq;
    }
  }

  lemma GuardedAtInsertFirst(rq: seq<nat>, t: Tasks, x: nat, r: nat)
    requires GuardedAt(rq, t, r) && Sorted(rq, t.pri) && x != r
    requires r in rq && Pri(t.pri, r) >= Pri(t.pri, x) ==> Pri(t.bpri, x) < Pri(t.pri, r)
    ensures GuardedAt(InsertFirst(rq, t.pri, x), t, r)
  {
    hide InsertFirst, GuardedAt, Pri;
    var k := InsertFirstSplit(rq, t.pri, x);
    GuardedAtJoin(rq, t, x, k, r);
  }

  /** What happens to a task outside the list does not matter to the list. */
  lemma GuardedOthers(rq: seq<nat>, t: Tasks, t1: Tasks, x: nat)
    requires x !in rq
    requires forall y :: y != x ==> Holds(t1.held, y) == Holds(t.held, y)
    requires forall y :: y != x ==> Pri(t1.bpri, y) == Pri(t.bpri, y) && Pri(t1.pri, y) == Pri(t.pri, y)
    ensures Guarded(rq, t) ==> Guarded(rq, t1)
    ensures forall r :: r != x && GuardedAt(rq, t, r) ==> GuardedAt(rq, t1, r)
  {
  }

  /** What a holder that gives way meets: the tasks it falls behind have base priorities above
      its new one, and its base priority is above the holders that it stays ahead of. */
  lemma LoweredOther(rq: seq<nat>, t: Tasks, x: nat, p: nat, y: nat)
    requires Guarded(rq, t) && Sorted(rq, t.pri) && x in rq && Holds(t.held, x) && y in rq && y != x
    requires Pri(t.pri, x) < p <= Pri(t.bpri, x) && (!Holds(t.held, y) ==> Pri(t.bpri, y) == Pri(t.pri, y))
    ensures Pri(t.pri, y) < p ==> Pri(t.bpri, y) < p
    ensures Holds(t.held, y) && Pri(t.pri, y) >= p ==> Pri(t.bpri, x) < Pri(t.pri, y)
  {
    hide Holds, Pri;
    var ix :| 0 <= ix < |rq| && rq[ix] == x;
    var iy :| 0 <= iy < |rq| && rq[iy] == y;
  }

  lemma LoweredAt(rq: seq<nat>, t: Tasks, x: nat, p: nat, r: nat)
    requires GuardedAt(rq, t, r) && Sorted(rq, t.pri) && x in rq && r != x && Pri(t.pri, x) < p
    ensures r in rq && Pri(t.pri, r) >= p ==> Pri(t.bpri, x) < Pri(t.pri, r)
  {
    hide Pri;
    if r in rq {
      var ix :| 0 <= ix < |rq| && rq[ix] == x;
      var ir :| 0 <= ir < |rq| && rq[ir] == r;
    }
  }

  /** A holder gives way: it goes ahead of its equals at its new, lower priority. */
  lemma Lowered(rq: seq<nat>, t: Tasks, x: nat, p: nat, h1: seq<nat>)
    requires Guarded(rq, t) && Sorted(rq, t.pri) && NoDup(rq) && x in rq && Holds(t.held, x)
    requires x < |t.pri| && t.pri[x] < p <= Pri(t.bpri, x)
    requires forall y :: y in rq && !Holds(t.held, y) ==> Pri(t.bpri, y) == Pri(t.pri, y)
    ensures var t1 := t.(held := t.held[x := h1], pri := t.pri[x := p]);
            var rq1 := InsertFirst(Remove(rq, x), t1.pri, x);
            && Guarded(rq1, t1) && GuardedAt(rq1, t1, x)
            && (forall r :: r != x && GuardedAt(rq, t, r) ==> GuardedAt(rq1, t1, r))
  {
    hide InsertFirst, Remove, NoDup, Guarded, GuardedAt;
    var t1 := t.(held := t.held[x := h1], pri := t.pri[x := p]);
    var q := Remove(rq, x);
    RemoveNoDup(rq, x);
    RemoveSorted(rq, t.pri, x);
    GuardedRemove(rq, t, x);
    GuardedOthers(q, t, t1, x);
    forall y | y in q
      ensures Pri(t1.pri, y) < p ==> Pri(t1.bpri, y) < p
      ensures Holds(t1.held, y) && Pri(t1.pri, y) >= p ==> Pri(t1.bpri, x) < Pri(t1.pri, y)
    {
      LoweredOther(rq, t, x, p, y);
    }
    assert Sorted(q, t1.pri);
    GuardedInsertFirst(q, t1, x);
    InsertedGuarded(q, t1, x);
    forall r | r != x && GuardedAt(rq, t, r)
      ensures GuardedAt(InsertFirst(q, t1.pri, x), t1, r)
    {
      GuardedAtRemove(rq, t, x, r);
      LoweredAt(rq, t, x, p, r);
      GuardedAtInsertFirst(q, t1, x, r);
    }
  }

  /** A task that every holder lies behind locks a mutex and rises to its ceiling. */
  lemma Raised(rq: seq<nat>, t: Tasks, x: nat, c: nat, h1: seq<nat>)
    requires Guarded(rq, t) && Sorted(rq, t.pri) && NoDup(rq)
    requires x < |t.pri| && c < t.pri[x] && c <= Pri(t.bpri, x)
    requires forall h: nat {:trigger Holds(t.held, h)} :: Holds(t.held, h) && h != x ==> Pri(t.bpri, x) < Pri(t.pri, h)
    requires forall y :: y in rq && !Holds(t.held, y) ==> Pri(t.bpri, y) == Pri(t.pri, y)
    requires x < |t.held|
    ensures var t1 := t.(held := t.held[x := h1], pri := t.pri[x := c]);
            var rq1 := InsertFirst(Remove(rq, x), t1.pri, x);
            Guarded(rq1, t1) && GuardedAt(rq1, t1, x)
  {
    hide InsertFirst, Remove;
    var t1 := t.(held := t.held[x := h1], pri := t.pri[x := c]);
    var q := Remove(rq, x);
    RemoveNoDup(rq, x);
    RemoveSorted(rq, t.pri, x);
    GuardedRemove(rq, t, x);
    GuardedOthers(q, t, t1, x);
    forall y | y in q
      ensures Pri(t1.pri, y) < c ==> Pri(t1.bpri, y) < c
      ensures Holds(t1.held, y) ==> Pri(t1.bpri, x) < Pri(t1.pri, y)
    {
      assert Holds(t1.held, y) == Holds(t.held, y);
    }
    assert Sorted(q, t1.pri);
    GuardedInsertFirst(q, t1, x);
    InsertedGuarded(q, t1, x);
  }

  // ----- The calls ----------------------------------------------------------

  /** Nothing the protocol looks at changes. */
  ghost predicate SameView(k: K, k1: K) {
    && k1.cfg == k.cfg && k1.q.rq == k.q.rq && k1.q.wq == k.q.wq && k1.t.tstat == k.t.tstat
    && k1.t.held == k.t.held && k1.t.bpri == k.t.bpri && k1.t.pri == k.t.pri
    && k1.c.run == k.c.run && Dsp(k1) == Dsp(k)
  }

  lemma SameViewQuiet(k: K, k1: K)
    requires SameView(k, k1)
    ensures Quiet(k) ==> Quiet(k1)
    ensures Mine(k) ==> Mine(k1)
  {
  }

  /** A task that holds no mutex runs at its base priority. */
  lemma Unraised(k: K, t: nat)
    requires Core(k, -1, {}) && t < |k.t.tstat| && !Holds(k.t.held, t)
    ensures Pri(k.t.bpri, t) == Pri(k.t.pri, t)
  {
    hide LinksOk, OrderOk, OwnOk, TmrOk, SemOk, IdleOk, ClockOk, CfgOk;
    assert PriAt(k.cfg, k.t, t);
  }

  lemma ReadyFacts(k: K)
    requires Core(k, -1, {})
    ensures Sorted(k.q.rq, k.t.pri) && NoDup(k.q.rq)
    ensures forall t: nat {:trigger t in k.q.rq} :: t in k.q.rq <==> t < |k.t.tstat| && k.t.tstat[t].Runnable?
    ensures |k.t.tstat| == |k.t.held| == |k.t.bpri| == |k.t.pri|
  {
    hide OwnOk, PriOk, TmrOk, SemOk, IdleOk, ClockOk, CfgOk;
  }

  /** A task that is not ready joins the ready list. */
  lemma JoinQuiet(k: K, k1: K, t: nat)
    requires Core(k, -1, {}) && Quiet(k) && t < |k.t.tstat| && !k.t.tstat[t].Runnable?
    requires k1.cfg == k.cfg && k1.c == k.c && k1.t.held == k.t.held && k1.t.bpri == k.t.bpri && k1.t.pri == k.t.pri
    requires k1.t.tstat == k.t.tstat[t := Runnable] && k1.q.rq == InsertLast(k.q.rq, k.t.pri, t)
    requires |k1.q.wq| == |k.q.wq|
    requires forall m :: 0 <= m < |k.q.wq| && k.q.wq[m] == [] ==> k1.q.wq[m] == []
    ensures Quiet(k1) && (Mine(k) ==> Mine(k1))
  {
    hide Core, Guarded, GuardedAt, Sorted, InsertLast, Pri;
    ReadyFacts(k);
    assert !Holds(k.t.held, t);
    Unraised(k, t);
    GuardedInsertLast(k.q.rq, k.t, t);
    GuardedSame(InsertLast(k.q.rq, k.t.pri, t), k.t, k1.t);
    if Mine(k) && k.c.run.Some? && !Dsp(k) {
      var r := k.c.run.value;
      GuardedAtInsertLast(k.q.rq, k.t, t, r);
    }
  }

  lemma GuardedSame(rq: seq<nat>, t: Tasks, t1: Tasks)
    requires t1.held == t.held && t1.bpri == t.bpri && t1.pri == t.pri
    ensures Guarded(rq, t) ==> Guarded(rq, t1)
    ensures forall r :: GuardedAt(rq, t, r) ==> GuardedAt(rq, t1, r)
  {
  }

  /** A task that holds nothing leaves the ready list. */
  lemma LeaveQuiet(k: K, k1: K, t: nat)
    requires Core(k, -1, {}) && Quiet(k) && t < |k.t.tstat| && !Holds(k.t.held, t)
    requires k1.cfg == k.cfg && k1.c == k.c && k1.t.held == k.t.held && k1.t.bpri == k.t.bpri && k1.t.pri == k.t.pri
    requires |k1.t.tstat| == |k.t.tstat|
    requires forall u :: 0 <= u < |k.t.tstat| && u != t ==> k1.t.tstat[u] == k.t.tstat[u]
    requires k1.q.rq == Remove(k.q.rq, t) || k1.q.rq == k.q.rq
    requires |k1.q.wq| == |k.q.wq|
    requires forall m :: 0 <= m < |k.q.wq| && k.cfg.IsMtx(m) ==> k1.q.wq[m] == k.q.wq[m]
    ensures Quiet(k1)
    ensures Mine(k) && k.c.run != Some(t) ==> Mine(k1)
  {
    hide Core, Guarded, GuardedAt, Sorted, Remove;
    ReadyFacts(k);
    GuardedRemove(k.q.rq, k.t, t);
    GuardedSame(Remove(k.q.rq, t), k.t, k1.t);
    GuardedSame(k.q.rq, k.t, k1.t);
    if Mine(k) && k.c.run.Some? && !Dsp(k) {
      GuardedAtRemove(k.q.rq, k.t, t, k.c.run.value);
    }
  }

  lemma EndWaitQuiet(k: K, t: nat, er: Er)
    requires Core(k, -1, {}) && Quiet(k) && t < |k.t.tstat| && k.t.tstat[t].Waiting?
    ensures Shape(k) && Quiet(EndWait(k, t, er)) && (Mine(k) ==> Mine(EndWait(k, t, er)))
  {
    hide Core, Guarded, GuardedAt, Sorted, EndWait, InsertLast, Remove;
    CoreShape(k);
    EndWaitFields(k, t, er);
    var k1 := EndWait(k, t, er);
    assert forall m :: 0 <= m < |k.q.wq| && k.q.wq[m] == [] ==> k1.q.wq[m] == [] by { EmptyStays(k.t.tstat, k.q.wq, t); }
    if k.t.tstat[t].susp {
      LeaveQuiet(k, k1, t) by { assert !Holds(k.t.held, t); }
    } else {
      JoinQuiet(k, k1, t);
    }
  }

  lemma EmptyStays(tstat: seq<TStat>, wq: seq<seq<nat>>, t: nat)
    requires t < |tstat|
    ensures |WithoutWaiter(tstat, wq, t)| == |wq|
    ensures forall m :: 0 <= m < |wq| && wq[m] == [] ==> WithoutWaiter(tstat, wq, t)[m] == []
  {
  }

  lemma {:induction false} DrainQuiet(k: K, o: nat)
    requires Core(k, -1, {}) && Quiet(k) && o < |k.q.wq|
    ensures Sane(k) && Quiet(Drain(k, o)) && (Mine(k) ==> Mine(Drain(k, o)))
    decreases if o < |k.q.wq| then |k.q.wq[o]| else 0
  {
    hide Core, EndWait, PopWake, Quiet, Mine;
    CoreShape(k);
    if k.q.wq[o] != [] {
      CoreLinks(k, -1, {});
      PopWakeOk(k, o, E_DLT);
      PopIsEndWait(k, -1, o, E_DLT);
      EndWaitQuiet(k, k.q.wq[o][0], E_DLT);
      EndWaitPost(k, k.q.wq[o][0], E_DLT);
      DrainQuiet(PopWake(k, o, E_DLT), o);
    }
  }

  lemma AllUnraised(k: K)
    requires Core(k, -1, {})
    ensures forall y :: y in k.q.rq && !Holds(k.t.held, y) ==> Pri(k.t.bpri, y) == Pri(k.t.pri, y)
  {
    hide Core;
    ReadyFacts(k);
    forall y | y in k.q.rq && !Holds(k.t.held, y)
      ensures Pri(k.t.bpri, y) == Pri(k.t.pri, y)
    {
      Unraised(k, y);
    }
  }

  /** Task `r` runs, and if it can be preempted it is the highest ready task. */
  ghost predicate Running(k: K, r: nat) {
    k.c.run == Some(r) && r < |k.t.tstat| && k.t.tstat[r].Runnable? && (Dsp(k) ==> Sched(k) == Some(r))
  }

  lemma RunningGuarded(k: K, r: nat)
    requires Core(k, -1, {}) && Mine(k) && Running(k, r)
    ensures GuardedAt(k.q.rq, k.t, r)
  {
    hide Core;
    ReadyFacts(k);
  }

  lemma AcquireQuiet(k: K, r: nat, m: nat)
    requires Core(k, -1, {}) && Quiet(k) && Mine(k) && Running(k, r)
    requires k.cfg.IsMtx(m) && m < |k.q.wq| && k.cfg.Ceil(m).Some? && k.cfg.Ceil(m).value <= k.t.bpri[r]
    ensures Shape(k) && Quiet(Acquire(k, r, m)) && Mine(Acquire(k, r, m))
  {
    hide Core, Guarded, GuardedAt, Sorted, NoDup, InsertFirst, Remove;
    CoreShape(k);
    ReadyFacts(k);
    AllUnraised(k);
    RunningGuarded(k, r);
    var h1 := [m] + k.t.held[r];
    var c := k.cfg.Ceil(m).value;
    OthersHold(k.t.held, r, h1);
    if c < k.t.pri[r] {
      Raised(k.q.rq, k.t, r, c, h1);
    } else {
      MoreHeld(k.q.rq, k.t, r, h1);
    }
  }

  lemma OthersHold(held: seq<seq<nat>>, x: nat, h1: seq<nat>)
    requires x < |held|
    ensures forall y {:trigger Holds(held[x := h1], y)} :: y != x ==> Holds(held[x := h1], y) == Holds(held, y)
  {
  }

  lemma MoreHeld(rq: seq<nat>, t: Tasks, x: nat, h1: seq<nat>)
    requires Guarded(rq, t) && GuardedAt(rq, t, x) && x < |t.held|
    ensures var t1 := t.(held := t.held[x := h1]); Guarded(rq, t1) && GuardedAt(rq, t1, x)
  {
    var t1 := t.(held := t.held[x := h1]);
    assert forall y :: y != x ==> Holds(t1.held, y) == Holds(t.held, y);
  }

  lemma LessHeld(rq: seq<nat>, t: Tasks, x: nat, h1: seq<nat>)
    requires Guarded(rq, t) && Holds(t.held, x)
    ensures var t1 := t.(held := t.held[x := h1]);
            Guarded(rq, t1) && forall r :: GuardedAt(rq, t, r) ==> GuardedAt(rq, t1, r)
  {
    var t1 := t.(held := t.held[x := h1]);
    assert forall y :: Holds(t1.held, y) ==> Holds(t.held, y);
  }

  lemma GiveUpQuiet(k: K, t: nat, m: nat)
    requires Core(k, -1, {}) && Quiet(k) && t < |k.t.held| && m in k.t.held[t] && k.cfg.IsMtx(m) && m < |k.q.wq|
    ensures Shape(k) && t < |k.t.tstat| && Quiet(GiveUp(k, t, m)) && (Mine(k) ==> Mine(GiveUp(k, t, m)))
  {
    hide Core, Guarded, GuardedAt, Sorted, NoDup, InsertFirst, Remove, CalcPri;
    CoreShape(k);
    ReadyFacts(k);
    AllUnraised(k);
    assert Holds(k.t.held, t);
    var h1 := Remove(k.t.held[t], m);
    var p := CalcPri(k.cfg, h1, k.t.bpri[t]);
    LoweredPri(k, t, m);
    OthersHold(k.t.held, t, h1);
    if k.cfg.Ceil(m).value == k.t.pri[t] && p != k.t.pri[t] {
      Lowered(k.q.rq, k.t, t, p, h1);
    } else {
      LessHeld(k.q.rq, k.t, t, h1);
    }
  }

  lemma LoweredPri(k: K, t: nat, m: nat)
    requires Core(k, -1, {}) && t < |k.t.tstat| && t < |k.t.held| && m in k.t.held[t]
    ensures t < |k.t.bpri| && t < |k.t.pri|
    ensures k.t.pri[t] <= CalcPri(k.cfg, Remove(k.t.held[t], m), k.t.bpri[t]) <= k.t.bpri[t]
  {
    hide LinksOk, OrderOk, OwnOk, TmrOk, SemOk, IdleOk, ClockOk, CfgOk;
    assert PriAt(k.cfg, k.t, t);
    CalcRemove(k.cfg, k.t.held[t], m, k.t.bpri[t]);
  }

  lemma UnlQuiet(k: K, r: nat, m: nat)
    requires Core(k, -1, {}) && Quiet(k) && Mine(k) && r < |k.t.tstat| && k.cfg.IsMtx(m)
    ensures Sane(k) && m < |k.q.wq|
    ensures var k1 := DoUnlMtx(k, r, m).0; Quiet(k1) && Mine(k1)
  {
    hide Core, GiveUp, Guarded, RunGuarded;
    CoreShape(k);
    MutexFacts(k, m);
    if k.q.loc[m] == Some(r) {
      GiveUpCore(k, {}, r, m);
      GiveUpQuiet(k, r, m);
    }
  }

  lemma IniMtxQuiet(k: K, m: nat)
    requires Core(k, -1, {}) && Quiet(k) && Mine(k) && k.cfg.IsMtx(m)
    ensures Sane(k) && m < |k.q.wq|
    ensures var k1 := DoIniMtx(k, m).0; Quiet(k1) && Mine(k1)
  {
    hide Core, GiveUp, Guarded, RunGuarded;
    CoreShape(k);
    MutexFacts(k, m);
    assert Drain(k, m) == k;
    if k.q.loc[m].Some? {
      GiveUpCore(k, {}, k.q.loc[m].value, m);
      GiveUpQuiet(k, k.q.loc[m].value, m);
    }
  }

  /** Without waiters the mutexes of a terminated task simply become free. */
  lemma {:induction false} ReleaseListView(k: K, ms: seq<nat>)
    requires Shape(k) && WqOk(k) && CeilOk(k.cfg) && forall m :: m in ms ==> m < |k.cfg.obj| && k.q.wq[m] == []
    ensures SameView(k, ReleaseList(k, ms)) && ReleaseList(k, ms).c == k.c
    decreases |ms|
  {
    hide WqOk, CeilOk;
    if ms != [] {
      assert ms[0] in ms && forall m :: m in ms[1..] ==> m in ms;
      HandOverOk(k, ms[0]);
      ReleaseListView(HandOver(k, ms[0]), ms[1..]);
    }
  }

  /** ext_tsk and ter_tsk, once the task is in no queue. */
  lemma TerminateQuiet(k: K, t: nat)
    requires Core(k, t, {}) && t < |k.t.tstat| && t !in k.q.rq && Quiet(k)
    ensures Sane(k) && Quiet(Terminate(k, t))
    ensures Mine(k) && k.c.run != Some(t) ==> Mine(Terminate(k, t))
  {
    hide Core, Guarded, GuardedAt, ReleaseList, InsertLast;
    CoreShapeOf(k, t);
    DropHeld(k, t);
    var k0 := k.(t := k.t.(held := k.t.held[t := []]));
    ReleaseListOk(k0, k.t.held[t]);
    ReleaseListView(k0, k.t.held[t]);
    ReleaseListCore(k0, t, k.t.held[t]);
    var k1 := ReleaseAll(k, t);
    var d := SetFlag(MakeDormant(k1, t), t, Flags(false, false, false));
    DormantCore(k1, t);
    OthersView(k.t, d.t, t);
    GuardedOthers(k.q.rq, k.t, d.t, t);
    assert Quiet(d) && (Mine(k) && k.c.run != Some(t) ==> Mine(d));
    if k1.t.flag[t].actque {
      assert Terminate(k, t) == Activate(d, t);
      JoinQuiet(d, Activate(d, t), t);
    } else {
      SameViewQuiet(d, Terminate(k, t));
    }
  }

  lemma OthersView(t: Tasks, t1: Tasks, x: nat)
    requires x < |t.held| && x < |t.bpri| && x < |t.pri|
    requires |t1.bpri| == |t.bpri| && |t1.pri| == |t.pri| && t1.held == t.held[x := []]
    requires t1.bpri == t.bpri[x := t1.bpri[x]] && t1.pri == t.pri[x := t1.pri[x]]
    ensures !Holds(t1.held, x) && forall y :: y != x ==> Holds(t1.held, y) == Holds(t.held, y)
    ensures forall y :: y != x ==> Pri(t1.bpri, y) == Pri(t.bpri, y) && Pri(t1.pri, y) == Pri(t.pri, y)
  {
  }

  lemma CoreShapeOf(k: K, t: nat)
    requires Core(k, t, {})
    ensures Shape(k) && CfgOk(k.cfg) && Sane(k)
  {
    CoreSane(k, t, {});
  }

  /** The base priority of task `x` may become `b`: it does not sink to or below a holder that
      it is above. */
  ghost predicate NoPass(t: Tasks, x: nat, b: nat) {
    forall h {:trigger Holds(t.held, h)} :: Holds(t.held, h) && h != x && Pri(t.bpri, x) < Pri(t.pri, h) ==> b < Pri(t.pri, h)
  }

  /** A holder, or a running task that cannot be preempted, does not sink to or below a holder;
      and such a running task, if it holds nothing, does not go behind an equal. */
  ghost predicate MayRebase(k: K, t: nat, b: nat) {
    var bound := k.c.run == Some(t) && !Dsp(k);
    && (Holds(k.t.held, t) || bound ==> NoPass(k.t, t, b))
    && (bound && !Holds(k.t.held, t) ==> forall y :: y in k.q.rq && y != t ==> Pri(k.t.pri, y) != b)
  }

  lemma ChgPriQuiet(k: K, r: nat, t: nat, tskpri: Option<nat>)
    requires Core(k, -1, {}) && Quiet(k) && t < |k.t.tstat| && r < |k.t.tstat|
    ensures Sane(k)
    ensures DoChgPri(k, r, t, tskpri).1 == Ret(E_OK) ==> MayRebase(k, t, NewBase(k, t, tskpri)) ==>
              var k1 := DoChgPri(k, r, t, tskpri).0; Quiet(k1) && k1.c == k.c && (Mine(k) && !Dsp(k) ==> Mine(k1))
    ensures DoChgPri(k, r, t, tskpri).1 != Ret(E_OK) ==> DoChgPri(k, r, t, tskpri).0 == k
  {
    hide Core, Quiet, Mine, HasCeil, CheckCeil, ChangePriority, MayRebase;
    CoreShape(k);
    IniPri(k.cfg, t);
    var b := NewBase(k, t, tskpri);
    if b < TNUM_TPRI && !k.t.tstat[t].Dormant? && b >= k.cfg.minpri[r] && CheckCeil(k, t, b) && MayRebase(k, t, b) {
      CeilHeld(k, t) by { QuietCeil(k); }
      if Holds(k.t.held, t) {
        HeldRebase(k, t, b);
      } else {
        FreeRebase(k, t, b);
      }
    }
  }

  lemma QuietCeil(k: K)
    requires Quiet(k)
    ensures AllCeiling(k.cfg)
  {
  }

  function NewBase(k: K, t: nat, tskpri: Option<nat>): nat {
    if tskpri.Some? then tskpri.value else Pri(k.cfg.ipri, t)
  }

  lemma CeilHeld(k: K, t: nat)
    requires Core(k, -1, {}) && AllCeiling(k.cfg) && t < |k.t.held|
    ensures HasCeil(k.cfg, k.t.held[t]) <==> Holds(k.t.held, t)
  {
    hide LinksOk, OrderOk, PriOk, TmrOk, SemOk, IdleOk, ClockOk, CfgOk;
    if Holds(k.t.held, t) {
      var m := k.t.held[t][0];
      assert m in k.t.held[t] && k.cfg.IsMtx(m);
    }
  }

  /** A holder gets a new base priority, behind the ceiling that it runs at. */
  lemma HeldRebase(k: K, t: nat, b: nat)
    requires Core(k, -1, {}) && Quiet(k) && t < |k.t.tstat| && Holds(k.t.held, t) && t < |k.t.bpri| && MayRebase(k, t, b)
    ensures var k1 := k.(t := k.t.(bpri := k.t.bpri[t := b])); Quiet(k1) && (Mine(k) ==> Mine(k1))
  {
    hide Core, Sorted, Guarded, GuardedAt;
    ReadyFacts(k);
    RebasedGuarded(k.q.rq, k.t, t, b);
    if Mine(k) && k.c.run.Some? && !Dsp(k) {
      AtLeastBase(k, k.c.run.value);
      RebasedAt(k.q.rq, k.t, t, b, k.c.run.value);
    }
  }

  lemma AtLeastBase(k: K, t: nat)
    requires Core(k, -1, {}) && t < |k.t.tstat|
    ensures Pri(k.t.pri, t) <= Pri(k.t.bpri, t)
  {
    hide LinksOk, OrderOk, OwnOk, TmrOk, SemOk, IdleOk, ClockOk, CfgOk;
    assert PriAt(k.cfg, k.t, t);
  }

  lemma RebasedGuarded(rq: seq<nat>, t: Tasks, x: nat, b: nat)
    requires Guarded(rq, t) && NoDup(rq) && x < |t.bpri| && NoPass(t, x, b)
    ensures Guarded(rq, t.(bpri := t.bpri[x := b]))
  {
    hide Holds;
    var t1 := t.(bpri := t.bpri[x := b]);
    assert forall y :: y != x ==> Pri(t1.bpri, y) == Pri(t.bpri, y);
  }

  /** The running task `r` is above every other holder, so that such a holder is behind it. */
  lemma RebasedAt(rq: seq<nat>, t: Tasks, x: nat, b: nat, r: nat)
    requires RunGuarded(rq, t, r, false) && Sorted(rq, t.pri) && NoDup(rq) && x < |t.bpri| && Holds(t.held, x)
    requires Pri(t.pri, r) <= Pri(t.bpri, r)
    ensures GuardedAt(rq, t.(bpri := t.bpri[x := b]), r)
  {
    hide Holds;
    var t1 := t.(bpri := t.bpri[x := b]);
    assert forall y :: y != x ==> Pri(t1.bpri, y) == Pri(t.bpri, y);
    forall i, j | 0 <= i < j < |rq| && rq[j] == r
      ensures Pri(t1.bpri, rq[i]) < Pri(t1.pri, r)
    {
      assert rq[i] != rq[j] && Pri(t.pri, rq[i]) <= Pri(t.pri, rq[j]);
    }
  }

  /** A task that holds nothing gets a new base priority and goes behind its equals. */
  lemma FreeRebase(k: K, t: nat, b: nat)
    requires Core(k, -1, {}) && Quiet(k) && t < |k.t.tstat| && !Holds(k.t.held, t) && t < |k.t.bpri| && b < TNUM_TPRI
    requires MayRebase(k, t, b)
    ensures Shape(k)
    ensures var k0 := k.(t := k.t.(bpri := k.t.bpri[t := b]));
            Shape(k0) &&
            var k1 := ChangePriority(k0, t, b, false);
            && Quiet(k1) && k1.c == k.c
            && (Mine(k) && !Dsp(k) ==> Mine(k1))
  {
    hide Core, Guarded, GuardedAt, Sorted, NoDup, Remove, InsertLast;
    CoreShape(k);
    ReadyFacts(k);
    var t1 := k.t.(bpri := k.t.bpri[t := b], pri := k.t.pri[t := b]);
    var q := Remove(k.q.rq, t);
    RemoveNoDup(k.q.rq, t);
    RemoveSorted(k.q.rq, k.t.pri, t);
    GuardedRemove(k.q.rq, k.t, t);
    GuardedOthers(q, k.t, t1, t);
    SortedOthers(q, k.t.pri, t, b);
    GuardedInsertLast(q, t1, t);
    if Mine(k) && k.c.run.Some? && !Dsp(k) {
      if k.c.run == Some(t) {
        AllUnraised(k);
        AloneAt(q, t1, t, b);
      } else {
        GuardedAtRemove(k.q.rq, k.t, t, k.c.run.value);
        GuardedAtInsertLast(q, t1, t, k.c.run.value);
      }
    }
    if !k.t.tstat[t].Runnable? {
      assert q == k.q.rq;
    }
    WaiterMoved(k, t, b);
  }

  /** A task that joins at a priority of its own, above all holders, is guarded. */
  lemma AloneAt(q: seq<nat>, t: Tasks, x: nat, b: nat)
    requires Sorted(q, t.pri) && x !in q && Pri(t.pri, x) == b
    requires forall y :: y in q ==> Pri(t.pri, y) != b
    requires forall y :: y in q && Holds(t.held, y) ==> b < Pri(t.pri, y)
    requires forall y :: y in q && !Holds(t.held, y) ==> Pri(t.bpri, y) == Pri(t.pri, y)
    ensures GuardedAt(InsertLast(q, t.pri, x), t, x)
  {
    hide InsertLast, Sorted, Pri, Holds;
    var k := InsertLastSplit(q, t.pri, x);
    var r := q[..k] + [x] + q[k..];
    assert forall j :: k < j < |r| ==> r[j] == q[j - 1] && q[j - 1] in q;
    forall i | 0 <= i < k
      ensures Pri(t.bpri, r[i]) < Pri(t.pri, x)
    {
      assert r[i] == q[i] && q[i] in q;
    }
  }

  lemma SortedOthers(q: seq<nat>, pri: seq<nat>, t: nat, b: nat)
    requires Sorted(q, pri) && t !in q && t < |pri|
    ensures Sorted(q, pri[t := b])
  {
  }

  lemma WaiterMoved(k: K, t: nat, b: nat)
    requires Core(k, -1, {}) && Quiet(k) && t < |k.t.tstat| && !Holds(k.t.held, t) && t < |k.t.bpri| && b < TNUM_TPRI
    ensures var k0 := k.(t := k.t.(bpri := k.t.bpri[t := b]));
            Shape(k0) &&
            var k1 := ChangePriority(k0, t, b, false);
            NoWaits(k1) && k1.t.tstat == k.t.tstat && k1.cfg == k.cfg
  {
    hide OwnOk, PriOk, OrderOk, IdleOk, TmrOk, SemOk, ClockOk, CfgOk, InsertLast, Remove, Guarded;
    var k0 := k.(t := k.t.(bpri := k.t.bpri[t := b]));
    if k.t.tstat[t].Waiting? && k.t.tstat[t].fac.WaitObj? {
      assert t in k.q.wq[k.t.tstat[t].fac.o];
    }
  }

  /** Rotation does no harm if the task that goes to the back holds no mutex. */
  lemma RotateQuiet(k: K, p: nat)
    requires Core(k, -1, {}) && Quiet(k) && RotatesFree(k, p)
    ensures var k1 := DoRotRdq(k, p).0; Quiet(k1) && (Mine(k) ==> Mine(k1))
  {
    hide Core, Guarded, GuardedAt, Sorted, NoDup, Remove, InsertLast, FirstOf;
    ReadyFacts(k);
    var f := FirstOf(k.q.rq, k.t.pri, p);
    if f.Some? && Rotate(k, p) != k {
      AllUnraised(k);
      var q := Remove(k.q.rq, f.value);
      RemoveSorted(k.q.rq, k.t.pri, f.value);
      GuardedRemove(k.q.rq, k.t, f.value);
      GuardedInsertLast(q, k.t, f.value);
      if k.c.run.Some? && !Dsp(k) && Mine(k) {
        GuardedAtRemove(k.q.rq, k.t, f.value, k.c.run.value);
        GuardedAtInsertLast(q, k.t, f.value, k.c.run.value);
      }
    }
  }

  // ----- What the tasks must not do -----------------------------------------

  /** The task that rotation would move holds no mutex; nor is it a running task that
      cannot be preempted. */
  predicate RotatesFree(k: K, p: nat) {
    var f := FirstOf(k.q.rq, k.t.pri, p);
    f.Some? && Rotate(k, p) != k ==> !Holds(k.t.held, f.value) && (!Dsp(k) ==> k.c.run != f)
  }

  /** A holder does not start to wait and is not suspended; neither its base priority nor that
      of a running task that cannot be preempted sinks to or below another holder; and such a
      running task does not go behind an equal before it locks.  Only calls that take effect
      are restricted, and calls on mutexes are not. */
  ghost predicate Allowed(k: K, op: Op)
    requires Enabled(k, op)
  {
    match op
    case Task(SlpTsk(_)) => Step(k, op).1.Blocks? ==> !Holds(k.t.held, k.c.run.value)
    case Task(DlyTsk(_)) => Step(k, op).1.Blocks? ==> !Holds(k.t.held, k.c.run.value)
    case Task(WaiSem(_, _)) => Step(k, op).1.Blocks? ==> !Holds(k.t.held, k.c.run.value)
    case Task(WaiQue(_, _)) => Step(k, op).1.Blocks? ==> !Holds(k.t.held, k.c.run.value)
    case Task(SusTsk(t)) => Step(k, op).1 == Ret(E_OK) ==> !Holds(k.t.held, t)
    case Task(ChgPri(t, p)) => Step(k, op).1 == Ret(E_OK) ==> MayRebase(k, t, NewBase(k, t, p))
    case Task(RotRdq(p)) => RotatesFree(k, if p.Some? then p.value else k.t.bpri[k.c.run.value])
    case Intr(RotRdq(p)) => RotatesFree(k, p.value)
    case _ => true
  }

  // ----- Every step ---------------------------------------------------------

  lemma BlockQuiet(k: K, r: nat, fac: Factor, arm: Option<nat>)
    requires Core(k, -1, {}) && Quiet(k) && r < |k.t.tstat| && !Holds(k.t.held, r) && k.c.run == Some(r) && Dsp(k)
    requires Shape(k) && k.cfg.per.Ok() && (fac.WaitObj? ==> fac.o < |k.q.wq| && !k.cfg.IsMtx(fac.o))
    ensures Quiet(Block(k, r, fac, arm)) && Dsp(Block(k, r, fac, arm))
  {
    hide Core, Enqueue, Quiet, Mine, Period.Ceil, Period.Ok;
    LeaveQuiet(k, Block(k, r, fac, arm), r);
  }

  lemma SuspendQuiet(k: K, r: nat, t: nat)
    requires Core(k, -1, {}) && Quiet(k) && Mine(k) && Running(k, r) && t < |k.t.tstat|
    ensures Shape(k)
    ensures (DoSusTsk(k, r, t).1 == Ret(E_OK) ==> !Holds(k.t.held, t)) ==>
              var k1 := DoSusTsk(k, r, t).0; Quiet(k1) && (Dsp(k1) || Mine(k1))
    ensures var k1 := DoRsmTsk(k, t).0; Quiet(k1) && Mine(k1)
  {
    hide Core, Quiet, Mine, Remove, InsertLast;
    CoreShape(k);
    if !Holds(k.t.held, t) {
      LeaveQuiet(k, DoSusTsk(k, r, t).0, t);
    }
    match k.t.tstat[t]
    case Suspended => JoinQuiet(k, Activate(k, t), t);
    case Waiting(_, true) =>
      LeaveQuiet(k, DoRsmTsk(k, t).0, t) by { NotReadyFree(k, t); }
    case _ =>
  }

  lemma NotReadyFree(k: K, t: nat)
    requires Quiet(k) && t < |k.t.tstat| && !k.t.tstat[t].Runnable?
    ensures !Holds(k.t.held, t)
  {
  }

  /** Calls that tasks and interrupt handlers share. */
  lemma FlagQuiet(k: K, call: Call)
    requires Core(k, -1, {}) && Quiet(k) && Mine(k) && ArgsOk(k.cfg, call)
    requires call.DisWai? || call.EnaWai? || call.StaAlm? || call.StpAlm?
    ensures Sane(k)
    ensures var k1 := DoCall(k, 0, call).0; Quiet(k1) && Mine(k1)
  {
    hide Core, Quiet, Mine, WqOk, HeldOk, CeilOk, Period.Ok;
    CoreShape(k);
    SameViewQuiet(k, DoCall(k, 0, call).0);
  }

  lemma SharedQuiet(k: K, call: Call)
    requires Core(k, -1, {}) && Quiet(k) && Mine(k) && ArgsOk(k.cfg, call) && FromInterrupt(call)
    requires call.RotRdq? ==> RotatesFree(k, call.p.value)
    ensures Sane(k)
    ensures var k1 := DoCall(k, 0, call).0; Quiet(k1) && Mine(k1)
  {
    hide Core, Quiet, Mine, EndWait, Rotate, RotatesFree, InsertLast, DoSigSem, DoRotRdq, WqOk, HeldOk, CeilOk, Period.Ok, WakeAll, DoDisWai, DoEnaWai, DoStaAlm, DoStpAlm;
    CoreShape(k);
    match call
    case ActTsk(t) =>
      if k.t.tstat[t].Dormant? {
        JoinQuiet(k, Activate(k, t), t);
      } else {
        SameViewQuiet(k, DoActTsk(k, t).0);
      }
    case WupTsk(t) =>
      if k.t.tstat[t].Waiting? && k.t.tstat[t].fac.WaitSlp? {
        EndWaitQuiet(k, t, E_OK);
      } else {
        SameViewQuiet(k, DoWupTsk(k, t).0);
      }
    case RelWai(t) =>
      if k.t.tstat[t].Waiting? {
        EndWaitQuiet(k, t, E_RLWAI);
      }
    case SigSem(o) => SigQuiet(k, o);
    case WakQue(o, ts) => WakeAllQuiet(k, o, ts);
    case RotRdq(p) => RotateQuiet(k, p.value);
    case _ => FlagQuiet(k, call);
  }

  lemma {:induction false} WakeAllQuiet(k: K, o: nat, ts: seq<nat>)
    requires Core(k, -1, {}) && Quiet(k)
    ensures |k.t.tstat| == |k.t.winfo|
    ensures Quiet(WakeAll(k, o, ts)) && (Mine(k) ==> Mine(WakeAll(k, o, ts)))
    decreases |ts|
  {
    hide Core, EndWait, Quiet, Mine;
    CoreShape(k);
    if ts != [] {
      if WaitsOn(k, ts[0], o) {
        EndWaitQuiet(k, ts[0], E_OK);
        EndWaitCore(k, -1, {}, ts[0], E_OK);
        WakeAllQuiet(EndWait(k, ts[0], E_OK), o, ts[1..]);
      } else {
        WakeAllQuiet(k, o, ts[1..]);
      }
    }
  }

  lemma IniQueQuiet(k: K, o: nat, o2: nat)
    requires Core(k, -1, {}) && Quiet(k) && Mine(k) && k.cfg.IsQue(o) && k.cfg.IsQue(o2)
    ensures Sane(k) && o < |k.q.wq| && o2 < |k.q.wq|
    ensures var k1 := DoIniQue(k, o, o2).0; Quiet(k1) && Mine(k1)
  {
    hide Core, Quiet, Mine, Drain;
    CoreShape(k);
    QueFacts(k, o);
    QueFacts(k, o2);
    DrainQuiet(k, o);
    DrainCore(k, -1, {}, o);
    DrainOk(k, o);
    DrainQuiet(Drain(k, o), o2);
  }

  lemma SigQuiet(k: K, o: nat)
    requires Core(k, -1, {}) && Quiet(k) && Mine(k) && k.cfg.IsSem(o)
    ensures Sane(k)
    ensures var k1 := DoSigSem(k, o).0; Quiet(k1) && Mine(k1)
    ensures var k1 := DoIniSem(k, o).0; Quiet(k1) && Mine(k1)
  {
    hide Core, Quiet, Mine, EndWait, PopWake, Drain;
    CoreShape(k);
    if k.q.wq[o] != [] {
      CoreLinks(k, -1, {});
      PopWakeOk(k, o, E_OK);
      PopIsEndWait(k, -1, o, E_OK);
      EndWaitQuiet(k, k.q.wq[o][0], E_OK);
    } else {
      SameViewQuiet(k, DoSigSem(k, o).0);
    }
    DrainQuiet(k, o);
    SameViewQuiet(Drain(k, o), DoIniSem(k, o).0);
  }

  lemma MutexQuiet(k: K, r: nat, call: Call)
    requires Core(k, -1, {}) && Quiet(k) && Mine(k) && Running(k, r) && ArgsOk(k.cfg, call)
    requires call.LocMtx? || call.PlocMtx? || call.UnlMtx? || call.IniMtx?
    ensures Sane(k)
    ensures var k1 := DoCall(k, r, call).0; Quiet(k1) && Mine(k1)
  {
    hide Core, Quiet, Mine, Acquire, GiveUp, HandOver, Drain, Block, Cfg.Ceil;
    CoreShape(k);
    match call
    case LocMtx(m, tmo) =>
      NeverWaitsCore(k, r, m, tmo);
      LockQuiet(k, r, m);
    case PlocMtx(m) => LockQuiet(k, r, m);
    case UnlMtx(m) => UnlQuiet(k, r, m);
    case IniMtx(m) => IniMtxQuiet(k, m);
  }

  lemma LockQuiet(k: K, r: nat, m: nat)
    requires Core(k, -1, {}) && Quiet(k) && Mine(k) && Running(k, r) && k.cfg.IsMtx(m)
    ensures Shape(k) && r < |k.t.tstat| && m < |k.q.wq| && k.cfg.Ceil(m).Some?
    ensures k.cfg.Ceil(m).value <= k.t.bpri[r] ==>
              Quiet(Acquire(k, r, m)) && Mine(Acquire(k, r, m))
  {
    hide Core, Guarded, Mine, Acquire;
    CoreShape(k);
    if k.cfg.Ceil(m).value <= k.t.bpri[r] {
      AcquireQuiet(k, r, m);
    }
  }

  lemma TaskQuiet(k: K, r: nat, call: Call)
    requires Core(k, -1, {}) && Quiet(k) && Mine(k) && Running(k, r) && ArgsOk(k.cfg, call)
    requires Enabled(k, Task(call)) && Allowed(k, Task(call))
    ensures Sane(k)
    ensures var k1 := DoCall(k, r, call).0; Quiet(k1) && (Dsp(k1) || Mine(k1))
  {
    hide Core, Quiet, Mine, DoCall, Sane, RotatesFree;
    CoreShape(k);
    if FromInterrupt(call) {
      SharedQuiet(k, call);
      SameForAll(k, r, call);
    } else {
      OwnQuiet(k, r, call);
    }
  }

  /** What an interrupt handler may call does not depend on the caller. */
  lemma SameForAll(k: K, r: nat, call: Call)
    requires Sane(k) && ArgsOk(k.cfg, call) && FromInterrupt(call)
    ensures DoCall(k, r, call) == DoCall(k, 0, call)
  {
    hide Sane, DoActTsk, DoWupTsk, DoRelWai, DoDisWai, DoEnaWai, DoSigSem, WakeAll, DoRotRdq, DoStaAlm, DoStpAlm;
  }

  lemma OwnQuiet(k: K, r: nat, call: Call)
    requires Core(k, -1, {}) && Quiet(k) && Mine(k) && Running(k, r) && ArgsOk(k.cfg, call)
    requires !FromInterrupt(call) && Enabled(k, Task(call)) && Allowed(k, Task(call))
    ensures Sane(k)
    ensures var k1 := DoCall(k, r, call).0; Quiet(k1) && (Dsp(k1) || Mine(k1))
  {
    hide Core, Quiet, Mine, Acquire, GiveUp, HandOver, Drain, Block, EndWait, PopWake, Rotate, RotatesFree, Terminate;
    hide SetFlag, Detach, CheckCeil, HasCeil, InsertLast, Remove, WakeAll, DoIniQue, DoWaiQue;
    CoreShape(k);
    match call
    case ExtTsk => ExtQuiet(k, r);
    case TerTsk(t) => TerQuiet(k, r, t);
    case ChgPri(t, p) => ChgPriQuiet(k, r, t, p);
    case SlpTsk(tmo) => SlpQuiet(k, r, call);
    case SusTsk(t) => SuspendQuiet(k, r, t);
    case RsmTsk(t) => SuspendQuiet(k, r, t);
    case DlyTsk(d) => SlpQuiet(k, r, call);
    case LocMtx(m, tmo) => MutexQuiet(k, r, call);
    case PlocMtx(m) => MutexQuiet(k, r, call);
    case UnlMtx(m) => MutexQuiet(k, r, call);
    case IniMtx(m) => MutexQuiet(k, r, call);
    case WaiSem(o, tmo) => SlpQuiet(k, r, call);
    case PolSem(o) => SameViewQuiet(k, DoPolSem(k, o).0);
    case IniSem(o) => SigQuiet(k, o);
    case WaiQue(o, tmo) => SlpQuiet(k, r, call);
    case IniQue(o, o2) => IniQueQuiet(k, o, o2);
    case RotRdq(_) => RotateQuiet(k, k.t.bpri[r]);
    case DisDsp => ContextQuiet(k, r, k.c.(disdsp := true));
    case EnaDsp => ContextQuiet(k, r, k.c.(disdsp := false));
    case ChgIpm(ena) => ContextQuiet(k, r, k.c.(ipmflg := ena));
    case StaCyc(i) => SameViewQuiet(k, DoStaCyc(k, i).0);
    case StpCyc(i) => SameViewQuiet(k, DoStpCyc(k, i).0);
  }

  lemma ContextQuiet(k: K, r: nat, c: Context)
    requires Core(k, -1, {}) && Quiet(k) && Mine(k) && Running(k, r) && c.run == k.c.run
    ensures Quiet(k.(c := c)) && Mine(k.(c := c))
  {
    hide Core, Guarded, GuardedAt;
    RunningGuarded(k, r);
  }

  lemma SlpQuiet(k: K, r: nat, call: Call)
    requires Core(k, -1, {}) && Quiet(k) && Mine(k) && Running(k, r) && ArgsOk(k.cfg, call)
    requires call.SlpTsk? || call.DlyTsk? || call.WaiSem? || call.WaiQue?
    requires Sane(k) && (DoCall(k, r, call).1.Blocks? ==> !Holds(k.t.held, r))
    ensures var k1 := DoCall(k, r, call).0; Quiet(k1) && (Dsp(k1) || Mine(k1))
  {
    hide Core, Quiet, Mine, Block, Period.Ok, Cfg.IsMtx;
    match call
    case SlpTsk(tmo) =>
      if DoCall(k, r, call).1.Blocks? {
        BlockQuiet(k, r, WaitSlp, ArmOf(tmo));
      } else {
        SameViewQuiet(k, DoSlpTsk(k, r, tmo).0);
      }
    case DlyTsk(d) =>
      if DoCall(k, r, call).1.Blocks? {
        BlockQuiet(k, r, WaitDly, Some(d));
      }
    case WaiSem(o, tmo) =>
      if DoCall(k, r, call).1.Blocks? {
        NoCeil(k.cfg, o);
        BlockQuiet(k, r, WaitObj(o), ArmOf(tmo));
      } else {
        SameViewQuiet(k, DoWaiSem(k, r, o, tmo).0);
      }
    case WaiQue(o, tmo) =>
      if DoCall(k, r, call).1.Blocks? {
        NoCeil(k.cfg, o);
        BlockQuiet(k, r, WaitObj(o), ArmOf(tmo));
      }
  }

  lemma ExtQuiet(k: K, r: nat)
    requires Core(k, -1, {}) && Quiet(k) && Running(k, r)
    ensures Sane(k)
    ensures var k1 := DoExtTsk(k, r).0; Quiet(k1) && Dsp(k1)
  {
    hide Core, Guarded, Terminate, Remove;
    CoreShape(k);
    ReadyFacts(k);
    var k0 := k.(c := k.c.(disdsp := false, ipmflg := true));
    CoreContext(k, k0.c);
    DetachCore(k0, r);
    ExtPost(k, r);
    RemoveNoDup(k.q.rq, r);
    GuardedRemove(k.q.rq, k.t, r);
    TerminateQuiet(MakeNonRunnable(k0, r), r);
  }

  lemma TerQuiet(k: K, r: nat, t: nat)
    requires Core(k, -1, {}) && Quiet(k) && Mine(k) && Running(k, r) && t < |k.t.tstat|
    ensures Sane(k)
    ensures var k1 := DoTerTsk(k, r, t).0; Quiet(k1) && Mine(k1)
  {
    hide Core, Guarded, GuardedAt, Terminate, Remove;
    CoreShape(k);
    if t != r && !k.t.tstat[t].Dormant? {
      ReadyFacts(k);
      DetachCore(k, t);
      RemoveNoDup(k.q.rq, t);
      GuardedRemove(k.q.rq, k.t, t);
      if !Dsp(k) {
        GuardedAtRemove(k.q.rq, k.t, t, r);
      }
      DetachedWaits(k, t);
      assert Quiet(Detach(k, t)) && Mine(Detach(k, t));
      TerminateQuiet(Detach(k, t), t);
    }
  }

  lemma DetachedWaits(k: K, t: nat)
    requires Shape(k) && t < |k.t.tstat| && NoWaits(k)
    ensures NoWaits(Detach(k, t))
  {
  }

  lemma DispatchQuiet(k: K)
    requires Core(k, -1, {}) && Quiet(k) && (Dsp(k) || Mine(k))
    ensures CeilInv(Dispatch(k))
  {
    hide Core;
    ReadyFacts(k);
    if Dsp(k) && k.q.rq != [] {
      forall h | Holds(k.t.held, h) && h != k.q.rq[0]
        ensures Pri(k.t.bpri, k.q.rq[0]) < Pri(k.t.pri, h)
      {
        assert h in k.q.rq;
      }
      assert k.q.rq[0] in k.q.rq;
    }
  }

  /** Every allowed step keeps the protocol's invariant. */
  lemma StepCeil(k: K, op: Op)
    requires Inv(k) && CeilInv(k) && Enabled(k, op) && Allowed(k, op)
    ensures CeilInv(Step(k, op).0)
  {
    hide Core, Quiet, Mine, DoCall, Inv, Shape, Sane, EndWait, RotatesFree;
    InvCore(k);
    match op
    case Task(call) =>
      TaskCallPost(k, k.c.run.value, call);
      TaskQuiet(k, k.c.run.value, call);
      DispatchQuiet(DoCall(k, k.c.run.value, call).0);
    case Intr(call) =>
      SharedQuiet(k, call);
      SameViewQuiet(DoCall(k, 0, call).0, Step(k, op).0);
    case EnterInt => SameViewQuiet(k, Step(k, op).0);
    case ExitInt =>
      var k1 := k.(c := k.c.(inint := false, reqflg := false));
      SameViewQuiet(k, k1);
      CoreContext(k, k1.c);
      DispatchQuiet(k1);
    case TickBegin => SameViewQuiet(k, Step(k, op).0);
    case Fire(b) => FireQuiet(k, b);
    case TickEnd => SameViewQuiet(k, Step(k, op).0);
  }

  lemma FireQuiet(k: K, b: Blk)
    requires Core(k, -1, {}) && CeilInv(k) && Enabled(k, Fire(b))
    ensures CeilInv(DoFire(k, b))
  {
    hide Core, Quiet, Mine, EndWait;
    match b
    case Tsk(t) =>
      var er := if k.t.tstat[t].fac.WaitDly? then E_OK else E_TMOUT;
      EndWaitQuiet(k, t, er);
      SameViewQuiet(EndWait(k, t, er), DoFire(k, b));
    case _ => SameViewQuiet(k, DoFire(k, b));
  }

  // ----- The theorem --------------------------------------------------------

  lemma NeverWaitsCore(k: K, r: nat, m: nat, tmo: Tmo)
    requires Core(k, -1, {}) && Quiet(k) && Mine(k) && Running(k, r) && k.cfg.IsMtx(m)
    ensures Sane(k) && m < |k.q.wq| && k.cfg.Ceil(m).Some?
    ensures k.q.loc[m].Some? && k.q.loc[m] != Some(r) ==> k.t.bpri[r] < k.cfg.Ceil(m).value
  {
    hide LinksOk, OrderOk, TmrOk, SemOk, IdleOk, ClockOk, Period.Ok, Guarded, GuardedAt;
    CoreSane(k, -1, {});
    if k.q.loc[m].Some? && k.q.loc[m].value != r {
      var h := k.q.loc[m].value;
      assert Holds(k.t.held, h);
      assert PriAt(k.cfg, k.t, h);
    }
  }

  /** In a state of the protocol every mutex is free, the caller's own, or refused
      because of its ceiling: locking it never waits and never times out. */
  lemma NeverWaits(k: K, m: nat, tmo: Tmo)
    requires Inv(k) && CeilInv(k) && !k.c.inint && k.c.run.Some? && k.cfg.IsMtx(m)
    ensures Enabled(k, Task(LocMtx(m, tmo))) && Enabled(k, Task(PlocMtx(m)))
    ensures Step(k, Task(LocMtx(m, tmo))).1 in {Ret(E_OK), Ret(E_CTX), Ret(E_PAR), Ret(E_ILUSE), Ret(E_OBJ)}
    ensures Step(k, Task(PlocMtx(m))).1 in {Ret(E_OK), Ret(E_ILUSE), Ret(E_OBJ)}
  {
    hide Core, Quiet, Mine, Acquire, Block;
    InvCore(k);
    CoreShape(k);
    NeverWaitsCore(k, k.c.run.value, m, tmo);
  }

  ghost predicate AllowedRun(k: K, ops: seq<Op>)
    requires IsRun(k, ops)
    decreases |ops|
  {
    ops != [] ==> Allowed(k, ops[0]) && AllowedRun(Step(k, ops[0]).0, ops[1..])
  }

  lemma {:induction false} RunCeil(k: K, ops: seq<Op>)
    requires Inv(k) && CeilInv(k) && IsRun(k, ops) && AllowedRun(k, ops)
    ensures Inv(After(k, ops)) && CeilInv(After(k, ops))
    decreases |ops|
  {
    hide Inv, CeilInv, Step, Enabled, Allowed;
    if ops != [] {
      StepInv(k, ops[0]);
      StepCeil(k, ops[0]);
      RunCeil(Step(k, ops[0]).0, ops[1..]);
    }
  }

  lemma BootCeil(c: Cfg, act: seq<nat>, sta: seq<nat>)
    requires CfgOk(c) && BootOk(c, act, sta) && AllCeiling(c)
    ensures CeilInv(Boot(c, act, sta))
  {
    hide Core, CfgOk, Inv;
    AsleepCore(c);
    StartAllCore(Asleep(c), sta);
    var k0 := StartAll(Asleep(c), sta);
    ActivateAllCore(k0, act);
    var k := ActivateAll(k0, act);
    BootInv(c, act, sta);
    assert forall t: nat :: !Holds(k.t.held, t);
    assert Quiet(k);
    DispatchQuiet(k);
  }

  /** The priority-ceiling protocol never blocks: in every run from start-up of a system
      whose mutexes all have ceilings, and whose steps are all allowed, no task ever waits
      for a mutex, and the next lock operation will not wait or time out either. */
  lemma CeilingNeverBlocks(c: Cfg, act: seq<nat>, sta: seq<nat>, ops: seq<Op>, m: nat, tmo: Tmo)
    requires CfgOk(c) && BootOk(c, act, sta) && AllCeiling(c) && c.IsMtx(m)
    requires IsRun(Boot(c, act, sta), ops) && AllowedRun(Boot(c, act, sta), ops)
    ensures var k := After(Boot(c, act, sta), ops);
            && (forall t: nat :: t < |k.t.tstat| ==> !WaitsOn(k, t, m))
            && (Enabled(k, Task(LocMtx(m, tmo))) ==>
                  Step(k, Task(LocMtx(m, tmo))).1 in {Ret(E_OK), Ret(E_CTX), Ret(E_PAR), Ret(E_ILUSE), Ret(E_OBJ)})
            && (Enabled(k, Task(PlocMtx(m))) ==>
                  Step(k, Task(PlocMtx(m))).1 in {Ret(E_OK), Ret(E_ILUSE), Ret(E_OBJ)})
  {
    hide Inv, CeilInv, Step, Sane, CfgOk, Boot;
    BootInv(c, act, sta);
    BootCeil(c, act, sta);
    RunCeil(Boot(c, act, sta), ops);
    SameCfg(Boot(c, act, sta), ops);
    BootCfg(c, act, sta);
    var k := After(Boot(c, act, sta), ops);
    NobodyWaits(k, m);
    if !k.c.inint && k.c.run.Some? {
      NeverWaits(k, m, tmo);
    }
  }

  /** Task `h` holds a mutex that lifts it from below priority `p` to `p` or above, so that
      it can keep a task of base priority `p` from running. */
  predicate Inverts(k: K, h: nat, p: nat) {
    Holds(k.t.held, h) && Pri(k.t.pri, h) <= p < Pri(k.t.bpri, h)
  }

  /** Priority inversion is bounded: for each priority at most one task inverts it. */
  lemma OneInverts(k: K, p: nat, g: nat, h: nat)
    requires Inv(k) && CeilInv(k) && Inverts(k, g, p) && Inverts(k, h, p)
    ensures g == h
  {
    hide Core, Inv, Mine;
    InvCore(k);
    ReadyFacts(k);
    HolderReady(k, g);
    HolderReady(k, h);
    var i :| 0 <= i < |k.q.rq| && k.q.rq[i] == g;
    var j :| 0 <= j < |k.q.rq| && k.q.rq[j] == h;
    assert i < j ==> Pri(k.t.bpri, g) < Pri(k.t.pri, h);
    assert j < i ==> Pri(k.t.bpri, h) < Pri(k.t.pri, g);
  }

  lemma HolderReady(k: K, h: nat)
    requires Core(k, -1, {}) && Quiet(k) && Holds(k.t.held, h)
    ensures h in k.q.rq
  {
    hide Core, Guarded;
    ReadyFacts(k);
  }

  /** In every run of the protocol at most one task at a time inverts a priority. */
  lemma InversionBounded(c: Cfg, act: seq<nat>, sta: seq<nat>, ops: seq<Op>, p: nat, g: nat, h: nat)
    requires CfgOk(c) && BootOk(c, act, sta) && AllCeiling(c)
    requires IsRun(Boot(c, act, sta), ops) && AllowedRun(Boot(c, act, sta), ops)
    ensures var k := After(Boot(c, act, sta), ops); Inverts(k, g, p) && Inverts(k, h, p) ==> g == h
  {
    hide Inv, CeilInv, Step, Sane, CfgOk, Boot, Inverts;
    BootInv(c, act, sta);
    BootCeil(c, act, sta);
    RunCeil(Boot(c, act, sta), ops);
    var k := After(Boot(c, act, sta), ops);
    if Inverts(k, g, p) && Inverts(k, h, p) {
      OneInverts(k, p, g, h);
    }
  }

  lemma BootCfg(c: Cfg, act: seq<nat>, sta: seq<nat>)
    requires CfgOk(c) && BootOk(c, act, sta)
    ensures Boot(c, act, sta).cfg == c
  {
    hide Core, CfgOk;
    AsleepCore(c);
    StartAllCore(Asleep(c), sta);
    ActivateAllCore(StartAll(Asleep(c), sta), act);
  }

  lemma NobodyWaits(k: K, m: nat)
    requires Inv(k) && CeilInv(k) && k.cfg.IsMtx(m)
    ensures forall t: nat :: t < |k.t.tstat| ==> !WaitsOn(k, t, m)
  {
    hide OrderOk, OwnOk, PriOk, TmrOk, SemOk, IdleOk, ClockOk, RunOk, Guarded, Mine;
    assert forall t: nat :: t < |k.t.tstat| && WaitsOn(k, t, m) ==> t in k.q.wq[m];
  }

  /** The rule on rotation is needed: if the running owner of a ceiling mutex rotates its
      own queue and another task `u` that may use the mutex comes to the front, then that
      task does have to wait for it. */
  lemma RotationBreaks(k: K, u: nat, m: nat)
    requires Inv(k) && !k.c.inint && Dsp(k) && k.cfg.IsMtx(m) && k.c.run.Some?
    requires m < |k.q.loc| && k.q.loc[m] == k.c.run && u != k.c.run.value
    requires Sched(Rotate(k, Pri(k.t.pri, k.c.run.value))) == Some(u)
    requires k.cfg.Ceil(m).Some? ==> k.cfg.Ceil(m).value <= Pri(k.t.bpri, u)
    requires u < |k.t.flag| && !k.t.flag[u].waifbd
    ensures var p := Pri(k.t.pri, k.c.run.value);
            p < TNUM_TPRI && Enabled(k, Task(RotRdq(Some(p)))) &&
            var k1 := Step(k, Task(RotRdq(Some(p)))).0;
            && Enabled(k1, Task(LocMtx(m, TMO_FEVR)))
            && Step(k1, Task(LocMtx(m, TMO_FEVR))).1 == Blocks
            && Step(k1, Task(LocMtx(m, TMO_FEVR))).0.q.wq[m] != []
  {
    hide Core, Inv, Sane, FirstOf, InsertLast, Remove, Block;
    InvSane(k);
    var p := Pri(k.t.pri, k.c.run.value);
    var k1 := Step(k, Task(RotRdq(Some(p)))).0;
    StepInv(k, Task(RotRdq(Some(p))));
    InvSane(k1);
    assert k1.t == k.t && k1.q.loc == k.q.loc && k1.c.run == Some(u) && Dsp(k1);
    BlockJoins(k1, u, m);
  }

  lemma BlockJoins(k: K, r: nat, o: nat)
    requires Shape(k) && k.cfg.per.Ok() && r < |k.t.tstat| && o < |k.q.wq|
    ensures Block(k, r, WaitObj(o), None).q.wq[o] != []
  {
  }
}

