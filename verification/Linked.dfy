/** The waiting tasks that a data queue, priority data queue, memory pool or event flag keeps
    are those of a wait queue of the kernel: what the object's operations do to its queue is
    what the kernel's calls do to the queue in the task tables. */
module Linked {
  import opened OrderedList
  import opened TimeEvent
  import opened KernelSpec
  import opened KernelInv
  import opened KernelCalls
  import opened WaitQueue
  import opened EventFlag

  /** Queue `o` of the kernel holds the tasks `q`, and `pri` are the current priorities. */
  ghost predicate Shows(k: K, o: nat, q: seq<nat>, tpri: bool, pri: seq<nat>) {
    k.cfg.IsQue(o) && k.cfg.obj[o].tpri == tpri && o < |k.q.wq| && k.q.wq[o] == q && k.t.pri == pri
  }

  /** A queue that the kernel shows is in order, as the objects have it. */
  lemma ShownInOrder(k: K, o: nat, q: seq<nat>, tpri: bool, pri: seq<nat>)
    requires Core(k, -1, {}) && Shows(k, o, q, tpri, pri)
    ensures QueueOk(q, tpri, pri) && forall t: nat :: t in q <==> WaitsOn(k, t, o)
  {
    hide OwnOk, PriOk, TmrOk, SemOk, IdleOk, ClockOk, CfgOk;
  }

  /** A task that has to wait joins the queue, and no other. */
  lemma Joins(k: K, r: nat, o: nat, tmo: Tmo, q: seq<nat>, tpri: bool, pri: seq<nat>)
    requires Core(k, -1, {}) && Shows(k, o, q, tpri, pri) && r < |k.t.tstat|
    ensures Sane(k)
    ensures var (k1, ret) := DoWaiQue(k, r, o, tmo);
            && Shows(k1, o, if ret.Blocks? then Joined(q, tpri, pri, r) else q, tpri, pri)
            && forall p, qp, tp :: p != o && Shows(k, p, qp, tp, pri) ==> Shows(k1, p, qp, tp, pri)
  {
    hide Core, Period.Ceil, Remove, InsertLast;
    CoreShape(k);
  }

  /** The tasks that are served leave the queue, and no other. */
  lemma {:induction false} Served(k: K, o: nat, ts: seq<nat>, q: seq<nat>, tpri: bool, pri: seq<nat>)
    requires Core(k, -1, {}) && Shows(k, o, q, tpri, pri)
    ensures |k.t.tstat| == |k.t.winfo|
    ensures var k1 := WakeAll(k, o, ts);
            && Shows(k1, o, Without(q, ts), tpri, pri)
            && forall p, qp, tp :: p != o && Shows(k, p, qp, tp, pri) ==> Shows(k1, p, qp, tp, pri)
    decreases |ts|
  {
    hide Core, EndWait, Remove;
    CoreShape(k);
    if ts != [] {
      ShownInOrder(k, o, q, tpri, pri);
      if WaitsOn(k, ts[0], o) {
        GivesUp(k, ts[0], o, E_OK, q, tpri, pri);
        EndWaitCore(k, -1, {}, ts[0], E_OK);
        Served(EndWait(k, ts[0], E_OK), o, ts[1..], Remove(q, ts[0]), tpri, pri);
      } else {
        assert Remove(q, ts[0]) == q;
        Served(k, o, ts[1..], q, tpri, pri);
      }
    }
  }

  /** In particular the first one: what remains is the tail. */
  lemma FirstServed(q: seq<nat>)
    requires q != []
    ensures Without(q, [q[0]]) == q[1..]
  {
    assert [q[0]][1..] == [];
  }

  /** A wait that ends otherwise takes the task out of the queue, and touches no other. */
  lemma GivesUp(k: K, t: nat, o: nat, er: Er, q: seq<nat>, tpri: bool, pri: seq<nat>)
    requires Core(k, -1, {}) && Shows(k, o, q, tpri, pri) && WaitsOn(k, t, o)
    ensures |k.t.tstat| == |k.t.winfo|
    ensures var k1 := EndWait(k, t, er);
            && Shows(k1, o, Remove(q, t), tpri, pri)
            && forall p, qp, tp :: p != o && Shows(k, p, qp, tp, pri) ==> Shows(k1, p, qp, tp, pri)
  {
    hide Core, EndWait, Remove;
    CoreShape(k);
    EndWaitFields(k, t, er);
  }

  /** A change of priority moves a waiting task as the objects do. */
  lemma Moves(k: K, t: nat, p: nat, mtxmode: bool, o: nat, q: seq<nat>, tpri: bool, pri: seq<nat>)
    requires Core(k, -1, {}) && Shows(k, o, q, tpri, pri) && t < |k.t.tstat| && p < TNUM_TPRI
    ensures Shape(k) && t < |pri|
    ensures Shows(ChangePriority(k, t, p, mtxmode), o, Moved(q, tpri, pri[t := p], t), tpri, pri[t := p])
  {
    hide Core, InsertLast, InsertFirst, Remove;
    CoreShape(k);
    ShownInOrder(k, o, q, tpri, pri);
  }

  /** Initialization empties the queues that it names. */
  lemma Emptied(k: K, o: nat, o2: nat, q: seq<nat>, tpri: bool, pri: seq<nat>)
    requires Core(k, -1, {}) && Shows(k, o, q, tpri, pri) && k.cfg.IsQue(o2)
    ensures Sane(k) && o2 < |k.q.wq|
    ensures Shows(DoIniQue(k, o, o2).0, o, [], tpri, pri)
    ensures o2 < |DoIniQue(k, o, o2).0.q.wq| && DoIniQue(k, o, o2).0.q.wq[o2] == []
  {
    hide Core, Drain;
    CoreShape(k);
    QueFacts(k, o2);
    DrainOk(k, o);
    DrainOk(Drain(k, o), o2);
  }

  // ----- Event flags: several tasks at once ---------------------------------

  /** Waking the satisfied waiters of an event flag leaves the others, in their order. */
  lemma {:induction false} FlagServed(q: seq<Waiter<Cond>>, p: Flgptn)
    requires NoDup(TskIds(q))
    ensures Without(TskIds(q), TskIds(Met(q, p))) == TskIds(Unmet(q, p))
  {
    hide Meets, NoDup, Met, Unmet, Without, TskIds;
    MetStep(q, p);
    UnmetStep(q, p);
    NoIds();
    if q != [] {
      var w, rest := q[0], q[1..];
      assert q == [w] + rest;
      HeadId(w, rest);
      HeadApart(w.tsk, TskIds(rest));
      FlagServed(rest, p);
      MetAmong(rest, p);
      if Meets(p, w.info) {
        HeadId(w, Met(rest, p));
        HeadServed(w.tsk, TskIds(rest), TskIds(Met(rest, p)));
      } else {
        WithoutHead(w.tsk, TskIds(rest), TskIds(Met(rest, p)));
        HeadId(w, Unmet(rest, p));
      }
    }
  }

  lemma NoIds()
    ensures TskIds<Cond>([]) == [] && forall q: seq<nat> :: Without(q, []) == q
    ensures forall q: seq<Waiter<Cond>> :: [] + q == q
  {
  }

  lemma HeadId(w: Waiter<Cond>, q: seq<Waiter<Cond>>)
    ensures TskIds([w] + q) == [w.tsk] + TskIds(q)
  {
  }

  lemma HeadServed(t: nat, q: seq<nat>, ts: seq<nat>)
    ensures Without([t] + q, [t] + ts) == Without(q, ts)
  {
    assert ([t] + ts)[1..] == ts && ([t] + q)[1..] == q;
  }

  lemma HeadApart(t: nat, q: seq<nat>)
    requires NoDup([t] + q)
    ensures t !in q && NoDup(q)
  {
    assert forall i :: 0 <= i < |q| ==> q[i] == ([t] + q)[i + 1];
    assert ([t] + q)[0] == t;
  }

  lemma MetAmong(q: seq<Waiter<Cond>>, p: Flgptn)
    ensures forall t :: t in TskIds(Met(q, p)) ==> t in TskIds(q)
  {
    MetExactly(q, p);
    forall i | 0 <= i < |Met(q, p)|
      ensures Met(q, p)[i].tsk in TskIds(q)
    {
      assert Met(q, p)[i] in q;
      var j :| 0 <= j < |q| && q[j] == Met(q, p)[i];
      assert TskIds(q)[j] == q[j].tsk;
    }
  }

  lemma {:induction false} WithoutHead(t: nat, q: seq<nat>, ts: seq<nat>)
    requires t !in ts
    ensures Without([t] + q, ts) == [t] + Without(q, ts)
    decreases |ts|
  {
    if ts != [] {
      assert ts[0] in ts && ([t] + q)[1..] == q;
      assert Remove([t] + q, ts[0]) == [t] + Remove(q, ts[0]);
      WithoutHead(t, Remove(q, ts[0]), ts[1..]);
    }
  }
}
