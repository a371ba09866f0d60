/** How waits end: for every step, which waiting tasks are released and with what answer;
    and what that means for the units of a semaphore over whole runs. */
module Waits {
  import opened Basics
  import opened OrderedList
  import opened TimeEvent
  import opened KernelSpec
  import opened KernelInv
  import opened KernelCalls
  import opened Runs
  import opened Ticks

  // A wait goes on, ends with an answer, or ends because the task is terminated.
  datatype End = GoesOn | Ends(er: Er) | Dies

  /** Task `v` is the first waiter of object `o`. */
  predicate First(k: K, o: nat, v: nat) {
    o < |k.q.wq| && k.q.wq[o] != [] && k.q.wq[o][0] == v
  }

  /** Task `v` is the first waiter for a mutex that task `t` owns. */
  predicate Inherits(k: K, t: nat, v: nat)
    requires v < |k.t.tstat| && k.t.tstat[v].Waiting?
  {
    match k.t.tstat[v].fac
    case WaitObj(o) => First(k, o, v) && o < |k.q.loc| && k.q.loc[o] == Some(t)
    case _ => false
  }

  /** What a call does to the wait of task `v`; `r` is the calling task. */
  function EndBy(k: K, r: nat, call: Call, v: nat): End
    requires v < |k.t.tstat| && k.t.tstat[v].Waiting?
  {
    var f := k.t.tstat[v].fac;
    match call
    case WupTsk(t) => if t == v && f.WaitSlp? then Ends(E_OK) else GoesOn
    case RelWai(t) => if t == v then Ends(E_RLWAI) else GoesOn
    case SigSem(o) => if f == WaitObj(o) && First(k, o, v) then Ends(E_OK) else GoesOn
    case UnlMtx(m) => if f == WaitObj(m) && Inherits(k, r, v) then Ends(E_OK) else GoesOn
    case ExtTsk => if Inherits(k, r, v) then Ends(E_OK) else GoesOn
    case TerTsk(t) => if t == v then Dies else if t != r && Inherits(k, t, v) then Ends(E_OK) else GoesOn
    case IniMtx(m) => if f == WaitObj(m) then Ends(E_DLT) else GoesOn
    case IniSem(o) => if f == WaitObj(o) then Ends(E_DLT) else GoesOn
    case WakQue(o, ts) => if f == WaitObj(o) && v in ts then Ends(E_OK) else GoesOn
    case IniQue(o, o2) => if f == WaitObj(o) || f == WaitObj(o2) then Ends(E_DLT) else GoesOn
    case _ => GoesOn
  }

  /** What a step does to the wait of task `v`. */
  function EndOf(k: K, op: Op, v: nat): End
    requires v < |k.t.tstat| && k.t.tstat[v].Waiting?
  {
    match op
    case Task(call) => EndBy(k, if k.c.run.Some? then k.c.run.value else 0, call, v)
    case Intr(call) => EndBy(k, 0, call, v)
    case Fire(b) => if b == Tsk(v) then Ends(if k.t.tstat[v].fac.WaitDly? then E_OK else E_TMOUT) else GoesOn
    case _ => GoesOn
  }

  // What became of the wait of task `v`.
  predicate Shows(t: Tasks, t1: Tasks, v: nat, end: End) {
    v < |t.tstat| == |t1.tstat| && v < |t.winfo| == |t1.winfo| && t.tstat[v].Waiting? &&
    match end
    case GoesOn => t1.tstat[v].Waiting? && t1.tstat[v].fac == t.tstat[v].fac && t1.winfo[v] == t.winfo[v]
    case Ends(er) => !t1.tstat[v].Waiting? && t1.winfo[v] == Wercd(er)
    case Dies => !t1.tstat[v].Waiting?
  }

  predicate Untouched(t: Tasks, t1: Tasks, v: nat) {
    v < |t.tstat| == |t1.tstat| && v < |t.winfo| == |t1.winfo| && t1.tstat[v] == t.tstat[v] && t1.winfo[v] == t.winfo[v]
  }

  // ----- The parts of the calls ---------------------------------------------

  lemma EndWaitEnds(k: K, t: nat, er: Er, v: nat)
    requires t < |k.t.tstat| == |k.t.winfo| && k.t.tstat[t].Waiting? && v < |k.t.tstat|
    ensures var k1 := EndWait(k, t, er);
            && k1.q.cnt == k.q.cnt
            && if v == t then Shows(k.t, k1.t, v, Ends(er)) else Untouched(k.t, k1.t, v)
  {
    hide EndWait;
    EndWaitFields(k, t, er);
  }

  lemma HandOverEnds(k: K, m: nat, v: nat)
    requires Shape(k) && WqOk(k) && CeilOk(k.cfg) && m < |k.q.wq| && v < |k.t.tstat|
    ensures k.q.wq[m] != [] ==> k.q.wq[m][0] < |k.t.tstat| && k.t.tstat[k.q.wq[m][0]].Waiting?
    ensures var k1 := HandOver(k, m);
            && k1.q.cnt == k.q.cnt && k1.cfg == k.cfg && Shape(k1) && WqOk(k1)
            && if First(k, m, v) then Shows(k.t, k1.t, v, Ends(E_OK)) else Untouched(k.t, k1.t, v)
  {
    HandOverOk(k, m);
    hide WqOk, Shape;
    ShapeSizes(k);
  }

  lemma ShapeSizes(k: K)
    requires Shape(k)
    ensures |k.t.tstat| == |k.t.winfo| == |k.t.pri| == |k.t.bpri| == |k.t.held| == |k.t.flag| == |k.cfg.ipri|
    ensures |k.q.wq| == |k.q.loc| == |k.q.cnt| == |k.cfg.obj|
  {
  }

  /** Task `v` is the first waiter of one of several objects. */
  predicate FirstOfSome(k: K, ms: seq<nat>, v: nat) {
    exists m :: m in ms && First(k, m, v)
  }

  /** A task that does not wait is first in no queue; one that waits, only in the queue of
      its object. */
  lemma FirstWaits(k: K, m: nat, v: nat)
    requires WqOk(k) && First(k, m, v)
    ensures WaitsOn(k, v, m)
  {
    assert v in k.q.wq[m];
  }

  lemma {:induction false} ReleaseListEnds(k: K, ms: seq<nat>, v: nat)
    requires Shape(k) && WqOk(k) && CeilOk(k.cfg) && v < |k.t.tstat|
    requires forall m :: m in ms ==> m < |k.cfg.obj|
    requires NoDup(ms)
    ensures var k1 := ReleaseList(k, ms);
            && k1.q.cnt == k.q.cnt
            && if FirstOfSome(k, ms, v) then Shows(k.t, k1.t, v, Ends(E_OK)) else Untouched(k.t, k1.t, v)
    decreases |ms|
  {
    hide WqOk, CeilOk, Shape, HandOver;
    ShapeSizes(k);
    if ms != [] {
      assert ms[0] in ms && forall m :: m in ms[1..] ==> m in ms;
      HandOverEnds(k, ms[0], v);
      HandOverOwners(k, ms[0]);
      var k1 := HandOver(k, ms[0]);
      ReleaseListEnds(k1, ms[1..], v);
      assert ms[0] !in ms[1..];
      if First(k, ms[0], v) {
        if m :| m in ms[1..] && First(k1, m, v) {
          FirstWaits(k1, m, v);
        }
      } else {
        assert forall m :: m in ms[1..] ==> (First(k1, m, v) <==> First(k, m, v));
      }
    }
  }

  lemma TerminateEnds(k: K, t: nat, v: nat)
    requires Sane(k) && t < |k.t.tstat| && v < |k.t.tstat| && v != t && NoDup(k.t.held[t])
    ensures var k1 := Terminate(k, t);
            if FirstOfSome(k, k.t.held[t], v) then Shows(k.t, k1.t, v, Ends(E_OK)) else Untouched(k.t, k1.t, v)
  {
    hide ReleaseList;
    var k0 := k.(t := k.t.(held := k.t.held[t := []]));
    ReleaseListOk(k0, k.t.held[t]);
    ReleaseListEnds(k0, k.t.held[t], v);
    ShapeSizes(k);
    assert forall m :: First(k0, m, v) <==> First(k, m, v);
  }

  lemma TerminateCounts(k: K, t: nat)
    requires Sane(k) && t < |k.t.tstat| && NoDup(k.t.held[t])
    ensures Terminate(k, t).q.cnt == k.q.cnt
  {
    hide ReleaseList;
    var k0 := k.(t := k.t.(held := k.t.held[t := []]));
    ReleaseListOk(k0, k.t.held[t]);
    ReleaseListEnds(k0, k.t.held[t], t);
  }

  lemma {:induction false} DrainEnds(k: K, o: nat, v: nat)
    requires Shape(k) && WqOk(k) && o < |k.q.wq| && v < |k.t.tstat|
    ensures var k1 := Drain(k, o);
            if v in k.q.wq[o] then Shows(k.t, k1.t, v, Ends(E_DLT)) else Untouched(k.t, k1.t, v)
    decreases if o < |k.q.wq| then |k.q.wq[o]| else 0
  {
    hide WqOk, Shape;
    ShapeSizes(k);
    if k.q.wq[o] != [] {
      PopWakeOk(k, o, E_DLT);
      var k1 := PopWake(k, o, E_DLT);
      DrainEnds(k1, o, v);
      var u := k.q.wq[o][0];
      if v == u && v in k1.q.wq[o] {
        InQueueWaits(k1, o, v);
      }
    }
  }

  lemma InQueueWaits(k: K, o: nat, v: nat)
    requires WqOk(k) && o < |k.q.wq| && v in k.q.wq[o]
    ensures WaitsOn(k, v, o)
  {
  }

  lemma GiveUpEnds(k: K, t: nat, m: nat)
    requires Shape(k) && WqOk(k) && t < |k.t.tstat| && m < |k.q.wq|
    ensures var k1 := GiveUp(k, t, m);
            && k1.q.cnt == k.q.cnt && k1.t.tstat == k.t.tstat && k1.t.winfo == k.t.winfo
  {
  }

  lemma AcquireEnds(k: K, t: nat, m: nat)
    requires Shape(k) && t < |k.t.tstat| && m < |k.q.wq|
    ensures var k1 := Acquire(k, t, m);
            && k1.q.cnt == k.q.cnt && k1.t.tstat == k.t.tstat && k1.t.winfo == k.t.winfo
  {
  }

  lemma BlockEnds(k: K, r: nat, fac: Factor, arm: Option<nat>, v: nat)
    requires Shape(k) && k.cfg.per.Ok() && r < |k.t.tstat| && (fac.WaitObj? ==> fac.o < |k.q.wq|)
    requires v < |k.t.tstat| && v != r
    ensures var k1 := Block(k, r, fac, arm); k1.q.cnt == k.q.cnt && Untouched(k.t, k1.t, v)
  {
    hide Enqueue, Remove, Period.Ceil;
  }

  /** A waiting task is in the queue of its object, and first in no other. */
  lemma Queued(k: K, v: nat)
    requires Core(k, -1, {}) && v < |k.t.tstat| && k.t.tstat[v].Waiting?
    ensures Sane(k)
    ensures forall o: nat :: o < |k.q.wq| ==> (v in k.q.wq[o] <==> WaitsOn(k, v, o))
    ensures forall o: nat :: First(k, o, v) ==> WaitsOn(k, v, o)
  {
    hide OrderOk, OwnOk, PriOk, TmrOk, SemOk, IdleOk, ClockOk, CfgOk;
    CoreSane(k, -1, {});
    forall o: nat | First(k, o, v)
      ensures WaitsOn(k, v, o)
    {
      assert v in k.q.wq[o];
    }
  }

  lemma WaiterInherits(k: K, t: nat, v: nat)
    requires Core(k, -1, {}) && v < |k.t.tstat| && k.t.tstat[v].Waiting? && t < |k.t.held|
    ensures FirstOfSome(k, k.t.held[t], v) <==> Inherits(k, t, v)
  {
    hide Core, First;
    Queued(k, v);
    OwnedExactly(k, t);
    if Inherits(k, t, v) {
      assert k.t.tstat[v].fac.o in k.t.held[t];
    }
  }

  // ----- The calls ----------------------------------------------------------

  // Task `r` calls, or an interrupt handler makes a call open to it, while `v` waits.
  ghost predicate Calling(k: K, r: nat, call: Call, v: nat) {
    && Core(k, -1, {}) && ArgsOk(k.cfg, call)
    && (!FromInterrupt(call) ==> r < |k.t.tstat| && k.t.tstat[r].Runnable?)
    && v < |k.t.tstat| && k.t.tstat[v].Waiting?
  }

  lemma MutexEnds(k: K, r: nat, call: Call, v: nat)
    requires Calling(k, r, call, v) && OnMutex(call)
    ensures Sane(k) && Shows(k.t, DoCall(k, r, call).0.t, v, EndBy(k, r, call, v))
  {
    hide Core, DoCall, Shows, EndBy, Sane;
    if call.LocMtx? || call.PlocMtx? {
      LockEnds(k, r, call, v);
    } else {
      UnlockEnds(k, r, call, v);
    }
  }

  lemma LockEnds(k: K, r: nat, call: Call, v: nat)
    requires Calling(k, r, call, v) && (call.LocMtx? || call.PlocMtx?)
    ensures Sane(k) && Shows(k.t, DoCall(k, r, call).0.t, v, EndBy(k, r, call, v))
  {
    hide Core, Acquire, Block, CeilOk, Period.Ok, WqOk, HeldOk, Shape;
    CoreShape(k);
    ShapeSizes(k);
    match call
    case LocMtx(m, tmo) =>
      AcquireEnds(k, r, m);
      BlockEnds(k, r, WaitObj(m), ArmOf(tmo), v);
    case PlocMtx(m) => AcquireEnds(k, r, m);
  }

  lemma UnlockEnds(k: K, r: nat, call: Call, v: nat)
    requires Calling(k, r, call, v) && (call.UnlMtx? || call.IniMtx?)
    ensures Sane(k) && Shows(k.t, DoCall(k, r, call).0.t, v, EndBy(k, r, call, v))
  {
    hide Core, GiveUp, HandOver, Drain, First, CeilOk, Period.Ok, HeldOk, Shape;
    CoreShape(k);
    ShapeSizes(k);
    Queued(k, v);
    match call
    case UnlMtx(m) =>
      if k.q.loc[m] == Some(r) {
        GiveUpOk(k, r, m);
        GiveUpEnds(k, r, m);
        SameFirst(k, r, m, v);
        HandOverEnds(GiveUp(k, r, m), m, v);
      }
    case IniMtx(m) =>
      DrainOk(k, m);
      DrainEnds(k, m, v);
      if k.q.loc[m].Some? && k.q.loc[m].value < |k.t.tstat| {
        GiveUpOk(Drain(k, m), k.q.loc[m].value, m);
        GiveUpEnds(Drain(k, m), k.q.loc[m].value, m);
      }
  }

  /** The task that gives up a mutex is not in its wait queue, so the first waiter stays. */
  lemma SameFirst(k: K, r: nat, m: nat, v: nat)
    requires Core(k, -1, {}) && r < |k.t.tstat| && k.t.tstat[r].Runnable? && m < |k.q.wq|
    ensures Shape(k) && (First(GiveUp(k, r, m), m, v) <==> First(k, m, v))
  {
    hide OwnOk, PriOk, TmrOk, SemOk, IdleOk, ClockOk, CfgOk, InsertFirst, Remove, CalcPri;
  }

  lemma {:induction false} WakeAllEnds(k: K, o: nat, ts: seq<nat>, v: nat)
    requires |k.t.tstat| == |k.t.winfo| && v < |k.t.tstat|
    ensures var k1 := WakeAll(k, o, ts);
            && k1.q.cnt == k.q.cnt
            && if WaitsOn(k, v, o) && v in ts then Shows(k.t, k1.t, v, Ends(E_OK)) else Untouched(k.t, k1.t, v)
    decreases |ts|
  {
    hide EndWait;
    if ts != [] {
      if WaitsOn(k, ts[0], o) {
        EndWaitEnds(k, ts[0], E_OK, v);
        EndWaitFields(k, ts[0], E_OK);
        WakeAllEnds(EndWait(k, ts[0], E_OK), o, ts[1..], v);
      } else {
        WakeAllEnds(k, o, ts[1..], v);
      }
    }
  }

  lemma QueEnds(k: K, r: nat, call: Call, v: nat)
    requires Calling(k, r, call, v) && OnQue(call)
    ensures Sane(k) && Shows(k.t, DoCall(k, r, call).0.t, v, EndBy(k, r, call, v))
  {
    hide Core, Block, Drain, WakeAll, CeilOk, Period.Ok, CfgOk;
    CoreShape(k);
    ShapeSizes(k);
    Queued(k, v);
    match call
    case WaiQue(o, tmo) => BlockEnds(k, r, WaitObj(o), ArmOf(tmo), v);
    case WakQue(o, ts) => WakeAllEnds(k, o, ts, v);
    case IniQue(o, o2) =>
      DrainOk(k, o);
      DrainEnds(k, o, v);
      ShapeSizes(Drain(k, o));
      DrainEnds(Drain(k, o), o2, v);
  }

  lemma SemEnds(k: K, r: nat, call: Call, v: nat)
    requires Calling(k, r, call, v) && OnSem(call)
    ensures Sane(k) && Shows(k.t, DoCall(k, r, call).0.t, v, EndBy(k, r, call, v))
  {
    hide Core, Block, Drain, PopWake, EndWait, CeilOk, Period.Ok;
    CoreShape(k);
    ShapeSizes(k);
    Queued(k, v);
    match call
    case SigSem(o) =>
      if k.q.wq[o] != [] {
        CoreLinks(k, -1, {});
        PopIsEndWait(k, -1, o, E_OK);
        EndWaitEnds(k, k.q.wq[o][0], E_OK, v);
      }
    case WaiSem(o, tmo) => BlockEnds(k, r, WaitObj(o), ArmOf(tmo), v);
    case PolSem(o) =>
    case IniSem(o) =>
      DrainOk(k, o);
      DrainEnds(k, o, v);
  }

  lemma TaskEnds(k: K, r: nat, call: Call, v: nat)
    requires Calling(k, r, call, v) && OnTask(call)
    ensures Sane(k) && Shows(k.t, DoCall(k, r, call).0.t, v, EndBy(k, r, call, v))
  {
    hide Core, Block, EndWait, Terminate, Inherits, First, CeilOk, Period.Ok, DoExtTsk, DoTerTsk, DoChgPri, WqOk, HeldOk;
    CoreShape(k);
    ShapeSizes(k);
    match call
    case ExtTsk => ExtEnds(k, r, v);
    case TerTsk(t) => TerEnds(k, r, t, v);
    case ChgPri(t, p) => RebaseEnds(k, r, t, p);
    case SlpTsk(tmo) => BlockEnds(k, r, WaitSlp, ArmOf(tmo), v);
    case WupTsk(t) => if k.t.tstat[t].Waiting? { EndWaitEnds(k, t, E_OK, v); }
    case RelWai(t) => if k.t.tstat[t].Waiting? { EndWaitEnds(k, t, E_RLWAI, v); }
    case DlyTsk(d) => BlockEnds(k, r, WaitDly, Some(d), v);
  }

  lemma OtherEnds(k: K, r: nat, call: Call, v: nat)
    requires Calling(k, r, call, v) && !OnMutex(call) && !OnSem(call) && !OnQue(call) && !OnTask(call)
    ensures Sane(k) && Shows(k.t, DoCall(k, r, call).0.t, v, EndBy(k, r, call, v))
  {
    hide Core, CeilOk, Period.Ok, Rotate, WqOk, HeldOk, InsertLast, Remove;
    CoreShape(k);
    ShapeSizes(k);
    match call
    case RotRdq(p) => RotateEnds(k, if p.Some? then p.value else k.t.bpri[r]);
    case _ =>
  }

  lemma ExtEnds(k: K, r: nat, v: nat)
    requires Calling(k, r, ExtTsk, v)
    ensures Sane(k) && Shows(k.t, DoExtTsk(k, r).0.t, v, EndBy(k, r, ExtTsk, v))
  {
    hide Core, Terminate, Inherits, FirstOfSome;
    CoreShape(k);
    ShapeSizes(k);
    var k0 := k.(c := k.c.(disdsp := false, ipmflg := true));
    CoreContext(k, k0.c);
    OwnedExactly(k, r);
    DetachOk(k0, r);
    SameHeld(k, Detach(k0, r));
    TerminateEnds(Detach(k0, r), r, v);
    WaiterInherits(k, r, v);
    SameHeads(k, Detach(k0, r), k.t.held[r], v);
  }

  lemma TerEnds(k: K, r: nat, t: nat, v: nat)
    requires Calling(k, r, TerTsk(t), v)
    ensures Sane(k) && Shows(k.t, DoTerTsk(k, r, t).0.t, v, EndBy(k, r, TerTsk(t), v))
  {
    hide Core, Terminate, Inherits, FirstOfSome, Detach;
    CoreShape(k);
    ShapeSizes(k);
    WaiterInherits(k, t, v);
    OwnedExactly(k, t);
    if t != r && !k.t.tstat[t].Dormant? {
      DetachOk(k, t);
      DetachQueues(k, t);
      SameHeld(k, Detach(k, t));
      if t == v {
        DetachCore(k, t);
        TerminateCore(Detach(k, t), t);
        CoreShape(Terminate(Detach(k, t), t));
        ShapeSizes(Terminate(Detach(k, t), t));
      } else {
        TerminateEnds(Detach(k, t), t, v);
        SameHeads(k, Detach(k, t), k.t.held[t], v);
      }
    } else if k.t.tstat[t].Dormant? {
      DormantOwnsNothing(k, t, v);
    }
  }

  lemma SameHeads(k: K, k0: K, ms: seq<nat>, v: nat)
    requires |k0.q.wq| == |k.q.wq| && forall m :: m in ms ==> m < |k.q.wq| && k0.q.wq[m] == k.q.wq[m]
    ensures FirstOfSome(k0, ms, v) <==> FirstOfSome(k, ms, v)
  {
    if m :| m in ms && First(k, m, v) {
      assert First(k0, m, v);
    }
    if m :| m in ms && First(k0, m, v) {
      assert First(k, m, v);
    }
  }

  lemma DormantOwnsNothing(k: K, t: nat, v: nat)
    requires Core(k, -1, {}) && t < |k.t.tstat| && k.t.tstat[t].Dormant?
    ensures t < |k.t.held| && !FirstOfSome(k, k.t.held[t], v)
  {
    hide LinksOk, OrderOk, OwnOk, PriOk, TmrOk, SemOk, ClockOk, CfgOk;
    assert IdleAt(k.cfg, k.t, t);
  }

  lemma RebaseEnds(k: K, r: nat, t: nat, p: Option<nat>)
    requires Sane(k) && t < |k.t.tstat| && r < |k.t.tstat|
    ensures var k1 := DoChgPri(k, r, t, p).0;
            k1.t.tstat == k.t.tstat && k1.t.winfo == k.t.winfo && k1.q.cnt == k.q.cnt
  {
    hide WqOk, HeldOk, Period.Ok, CheckCeil, HasCeil;
  }

  lemma RotateEnds(k: K, p: nat)
    ensures var k1 := DoRotRdq(k, p).0; k1.t == k.t && k1.q.cnt == k.q.cnt
  {
  }

  /** Every step ends exactly the waits it should, each with the answer it should: a wait
      ends with E_OK only for the first waiter, with E_TMOUT only when its time has come. */
  lemma WaitEnds(k: K, op: Op, v: nat)
    requires Inv(k) && Enabled(k, op) && v < |k.t.tstat| && k.t.tstat[v].Waiting?
    ensures Shows(k.t, Step(k, op).0.t, v, EndOf(k, op, v))
  {
    hide Core, Inv, DoCall, EndBy, Shows, EndWait, ArgsOk;
    InvCore(k);
    CoreShape(k);
    ShapeSizes(k);
    match op
    case Task(call) =>
      RunnerRuns(k, k.c.run.value);
      CallEnds(k, k.c.run.value, call, v);
    case Intr(call) => CallEnds(k, 0, call, v);
    case Fire(b) => FireEnds(k, b, v);
    case _ => StillWaits(k.t, v);
  }

  lemma StillWaits(t: Tasks, v: nat)
    requires v < |t.tstat| == |t.winfo| && t.tstat[v].Waiting?
    ensures Shows(t, t, v, GoesOn)
  {
  }

  lemma CallEnds(k: K, r: nat, call: Call, v: nat)
    requires Calling(k, r, call, v)
    ensures Sane(k) && Shows(k.t, DoCall(k, r, call).0.t, v, EndBy(k, r, call, v))
  {
    hide Shows, EndBy, Calling, DoCall;
    if OnMutex(call) {
      MutexEnds(k, r, call, v);
    } else if OnSem(call) {
      SemEnds(k, r, call, v);
    } else if OnQue(call) {
      QueEnds(k, r, call, v);
    } else if OnTask(call) {
      TaskEnds(k, r, call, v);
    } else {
      OtherEnds(k, r, call, v);
    }
  }

  lemma FireEnds(k: K, b: Blk, v: nat)
    requires Shape(k) && FireOk(k, b) && v < |k.t.tstat| && k.t.tstat[v].Waiting?
    ensures DoFire(k, b).q.cnt == k.q.cnt
    ensures Shows(k.t, DoFire(k, b).t, v, EndOf(k, Fire(b), v))
  {
    hide EndWait;
    ShapeSizes(k);
    if b.Tsk? {
      EndWaitEnds(k, b.id, if k.t.tstat[b.id].fac.WaitDly? then E_OK else E_TMOUT, v);
    }
  }

  /** A task whose wait for a mutex ends with E_OK owns it. */
  lemma GrantedOwns(k: K, op: Op, v: nat, m: nat)
    requires Inv(k) && Enabled(k, op) && WaitsOn(k, v, m) && k.cfg.IsMtx(m) && EndOf(k, op, v) == Ends(E_OK)
    ensures m < |Step(k, op).0.q.loc| && Step(k, op).0.q.loc[m] == Some(v)
  {
    hide Core, Inv, Terminate, GiveUp, HandOver, Detach;
    InvCore(k);
    CoreShape(k);
    ShapeSizes(k);
    var r := k.c.run.value;
    match op.call
    case UnlMtx(m) =>
      RunnerRuns(k, r);
      GiveUpOk(k, r, m);
      SameFirst(k, r, m, v);
      HandOverOk(GiveUp(k, r, m), m);
      HandOverOwners(GiveUp(k, r, m), m);
    case ExtTsk =>
      RunnerRuns(k, r);
      TerminationHandsOver(k, r);
    case TerTsk(t) =>
      OwnerActive(k, t, v);
      TerminationHandsOver(k, t);
  }

  lemma OwnerActive(k: K, t: nat, v: nat)
    requires Core(k, -1, {}) && v < |k.t.tstat| && k.t.tstat[v].Waiting? && t < |k.t.tstat| && Inherits(k, t, v)
    ensures !k.t.tstat[t].Dormant?
  {
    hide Core, Inherits, FirstOfSome;
    CoreShape(k);
    ShapeSizes(k);
    WaiterInherits(k, t, v);
    if k.t.tstat[t].Dormant? {
      DormantOwnsNothing(k, t, v);
    }
  }

  // ----- The units of a semaphore -------------------------------------------

  /** The units that a step adds to semaphore `o`. */
  ghost function Signalled(k: K, op: Op, o: nat): nat
    requires Enabled(k, op)
  {
    if Step(k, op).1 == Ret(E_OK) && (op == Task(SigSem(o)) || op == Intr(SigSem(o))) then 1 else 0
  }

  /** Task `v` is woken with E_OK: it waits before, and afterwards it does not and has that answer. */
  predicate WokenOk(t: Tasks, t1: Tasks, v: nat) {
    && v < |t.tstat| == |t1.tstat| && v < |t1.winfo|
    && t.tstat[v].Waiting? && !t1.tstat[v].Waiting? && t1.winfo[v] == Wercd(E_OK)
  }

  /** The tasks that waited for semaphore `o` and that a step, other than their own
      termination, wakes with E_OK. */
  ghost function Served(k: K, op: Op, o: nat): set<nat>
    requires Enabled(k, op)
  {
    set v | 0 <= v < |k.t.tstat| && WaitsOn(k, v, o) && WokenOk(k.t, Step(k, op).0.t, v) && op != Task(TerTsk(v))
  }

  /** The units that a step hands to tasks: to the caller, or to tasks that waited. */
  ghost function Granted(k: K, op: Op, o: nat): nat
    requires Enabled(k, op)
  {
    |Served(k, op, o)|
    + if Step(k, op).1 == Ret(E_OK) && op.Task? && (op.call == PolSem(o) || (op.call.WaiSem? && op.call.o == o)) then 1 else 0
  }

  lemma SemaphoreFree(k: K, o: nat)
    requires Core(k, -1, {}) && k.cfg.IsSem(o)
    ensures o < |k.q.loc| == |k.q.wq| == |k.q.cnt| && k.q.loc[o] == None && !k.cfg.IsMtx(o)
    ensures forall v: nat :: v in k.q.wq[o] <==> WaitsOn(k, v, o)
  {
    hide OrderOk, PriOk, TmrOk, SemOk, IdleOk, ClockOk, CfgOk;
  }

  /** A task is woken with E_OK exactly if the reference says that its wait ends so. */
  lemma WokenAsSaid(k: K, op: Op, v: nat)
    requires Inv(k) && Enabled(k, op) && v < |k.t.tstat| && k.t.tstat[v].Waiting? && op != Task(TerTsk(v))
    ensures WokenOk(k.t, Step(k, op).0.t, v) <==> EndOf(k, op, v) == Ends(E_OK)
  {
    hide Inv, Step;
    WaitEnds(k, op, v);
  }

  /** What the reference says about the waiters of a semaphore. */
  lemma SaidOfWaiter(k: K, op: Op, o: nat, v: nat)
    requires Inv(k) && Enabled(k, op) && k.cfg.IsSem(o) && WaitsOn(k, v, o)
    ensures o < |k.q.wq|
    ensures EndOf(k, op, v) == Ends(E_OK) <==> (op == Task(SigSem(o)) || op == Intr(SigSem(o))) && First(k, o, v)
  {
    hide Core, Inv;
    InvCore(k);
    SemaphoreFree(k, o);
  }

  /** Only a signal to the semaphore serves a waiter, and it serves the first. */
  lemma WhoIsServed(k: K, op: Op, o: nat)
    requires Inv(k) && Enabled(k, op) && k.cfg.IsSem(o)
    ensures o < |k.q.wq|
    ensures Served(k, op, o) == if (op == Task(SigSem(o)) || op == Intr(SigSem(o))) && k.q.wq[o] != [] then {k.q.wq[o][0]} else {}
  {
    hide Core, Inv, Step, Enabled, EndOf, WokenOk;
    InvCore(k);
    SemaphoreFree(k, o);
    forall v: nat | WaitsOn(k, v, o)
      ensures v in Served(k, op, o) <==> (op == Task(SigSem(o)) || op == Intr(SigSem(o))) && First(k, o, v)
    {
      SaidOfWaiter(k, op, o, v);
      if op != Task(TerTsk(v)) {
        WokenAsSaid(k, op, v);
      }
    }
    if k.q.wq[o] != [] {
      assert k.q.wq[o][0] in k.q.wq[o];
    }
  }

  /** Calls that are not about semaphores leave every count alone. */
  lemma SameCounts(k: K, r: nat, call: Call)
    requires Core(k, -1, {}) && ArgsOk(k.cfg, call) && (!FromInterrupt(call) ==> r < |k.t.tstat| && k.t.tstat[r].Runnable?)
    requires !OnSem(call)
    ensures Sane(k) && DoCall(k, r, call).0.q.cnt == k.q.cnt
  {
    hide Core, DoCall, Sane, ArgsOk, FromInterrupt;
    if OnMutex(call) {
      MutexCallCounts(k, r, call);
    } else if OnQue(call) {
      QueCounts(k, r, call);
    } else if OnTask(call) {
      TaskCounts(k, r, call);
    } else {
      OtherCounts(k, r, call);
    }
  }

  lemma MutexCallCounts(k: K, r: nat, call: Call)
    requires Core(k, -1, {}) && ArgsOk(k.cfg, call) && (!FromInterrupt(call) ==> r < |k.t.tstat| && k.t.tstat[r].Runnable?)
    requires OnMutex(call)
    ensures Sane(k) && DoCall(k, r, call).0.q.cnt == k.q.cnt
  {
    hide Core, DoLocMtx, DoPlocMtx, DoUnlMtx, DoIniMtx, Shape, CfgOk, WqOk, HeldOk;
    CoreShape(k);
    match call
    case LocMtx(m, tmo) => MutexCounts(k, r, m, tmo);
    case PlocMtx(m) => MutexCounts(k, r, m, 0);
    case UnlMtx(m) => MutexCounts(k, r, m, 0);
    case IniMtx(m) => MutexCounts(k, r, m, 0);
  }

  lemma QueCounts(k: K, r: nat, call: Call)
    requires Core(k, -1, {}) && ArgsOk(k.cfg, call) && (!FromInterrupt(call) ==> r < |k.t.tstat| && k.t.tstat[r].Runnable?)
    requires OnQue(call)
    ensures Sane(k) && DoCall(k, r, call).0.q.cnt == k.q.cnt
  {
    hide Core, Block, Drain, WakeAll, CeilOk, Period.Ok;
    CoreShape(k);
    match call
    case WaiQue(o, tmo) => BlockCounts(k, r, WaitObj(o), ArmOf(tmo));
    case WakQue(o, ts) => WakeAllCounts(k, o, ts);
    case IniQue(o, o2) =>
      DrainOk(k, o);
      DrainOk(Drain(k, o), o2);
  }

  lemma TaskCounts(k: K, r: nat, call: Call)
    requires Core(k, -1, {}) && ArgsOk(k.cfg, call) && (!FromInterrupt(call) ==> r < |k.t.tstat| && k.t.tstat[r].Runnable?)
    requires OnTask(call)
    ensures Sane(k) && DoCall(k, r, call).0.q.cnt == k.q.cnt
  {
    hide Core, Block, EndWait, CeilOk, Period.Ok, DoExtTsk, DoTerTsk, DoChgPri, WqOk, HeldOk;
    CoreShape(k);
    ShapeSizes(k);
    match call
    case ExtTsk => ExtCounts(k, r);
    case TerTsk(t) => TerCounts(k, r, t);
    case ChgPri(t, p) => RebaseEnds(k, r, t, p);
    case SlpTsk(tmo) => BlockCounts(k, r, WaitSlp, ArmOf(tmo));
    case WupTsk(t) => if k.t.tstat[t].Waiting? { EndWaitEnds(k, t, E_OK, t); }
    case RelWai(t) => if k.t.tstat[t].Waiting? { EndWaitEnds(k, t, E_RLWAI, t); }
    case DlyTsk(d) => BlockCounts(k, r, WaitDly, Some(d));
  }

  lemma OtherCounts(k: K, r: nat, call: Call)
    requires Core(k, -1, {}) && ArgsOk(k.cfg, call) && (!FromInterrupt(call) ==> r < |k.t.tstat| && k.t.tstat[r].Runnable?)
    requires !OnMutex(call) && !OnSem(call) && !OnQue(call) && !OnTask(call)
    ensures Sane(k) && DoCall(k, r, call).0.q.cnt == k.q.cnt
  {
    hide Core, CeilOk, Period.Ok, Rotate, WqOk, HeldOk, InsertLast, Remove;
    CoreShape(k);
    match call
    case RotRdq(p) => RotateEnds(k, if p.Some? then p.value else k.t.bpri[r]);
    case _ =>
  }

  lemma {:induction false} WakeAllCounts(k: K, o: nat, ts: seq<nat>)
    requires |k.t.tstat| == |k.t.winfo|
    ensures WakeAll(k, o, ts).q.cnt == k.q.cnt
    decreases |ts|
  {
    hide EndWait;
    if ts != [] {
      if WaitsOn(k, ts[0], o) {
        EndWaitFields(k, ts[0], E_OK);
        WakeAllCounts(EndWait(k, ts[0], E_OK), o, ts[1..]);
      } else {
        WakeAllCounts(k, o, ts[1..]);
      }
    }
  }

  lemma BlockCounts(k: K, r: nat, fac: Factor, arm: Option<nat>)
    requires Shape(k) && k.cfg.per.Ok() && r < |k.t.tstat| && (fac.WaitObj? ==> fac.o < |k.q.wq|)
    ensures Block(k, r, fac, arm).q.cnt == k.q.cnt
  {
    hide Enqueue, Remove, Period.Ceil;
  }

  lemma MutexCounts(k: K, r: nat, m: nat, tmo: Tmo)
    requires Core(k, -1, {}) && r < |k.t.tstat| && k.cfg.IsMtx(m)
    ensures Sane(k) && m < |k.q.wq|
    ensures DoLocMtx(k, r, m, tmo).0.q.cnt == k.q.cnt
    ensures DoPlocMtx(k, r, m).0.q.cnt == k.q.cnt
    ensures DoUnlMtx(k, r, m).0.q.cnt == k.q.cnt
    ensures DoIniMtx(k, m).0.q.cnt == k.q.cnt
  {
    hide Core, Acquire, Block, GiveUp, HandOver, Drain, CeilOk, Period.Ok;
    CoreShape(k);
    ShapeSizes(k);
    AcquireEnds(k, r, m);
    BlockCounts(k, r, WaitObj(m), ArmOf(tmo));
    GiveUpOk(k, r, m);
    GiveUpEnds(k, r, m);
    HandOverEnds(GiveUp(k, r, m), m, r);
    DrainOk(k, m);
    if k.q.loc[m].Some? && k.q.loc[m].value < |k.t.tstat| {
      GiveUpEnds(Drain(k, m), k.q.loc[m].value, m);
    }
  }

  lemma ExtCounts(k: K, r: nat)
    requires Core(k, -1, {}) && r < |k.t.tstat| && k.t.tstat[r].Runnable?
    ensures Sane(k) && DoExtTsk(k, r).0.q.cnt == k.q.cnt
  {
    hide Core, Terminate;
    CoreShape(k);
    ShapeSizes(k);
    var k0 := k.(c := k.c.(disdsp := false, ipmflg := true));
    OwnedExactly(k, r);
    DetachOk(k0, r);
    SameHeld(k, Detach(k0, r));
    TerminateCounts(Detach(k0, r), r);
  }

  lemma TerCounts(k: K, r: nat, t: nat)
    requires Core(k, -1, {}) && t < |k.t.tstat|
    ensures Sane(k) && DoTerTsk(k, r, t).0.q.cnt == k.q.cnt
  {
    hide Core, Terminate;
    CoreShape(k);
    ShapeSizes(k);
    OwnedExactly(k, t);
    DetachOk(k, t);
    SameHeld(k, Detach(k, t));
    if t != r && !k.t.tstat[t].Dormant? {
      TerminateCounts(Detach(k, t), t);
    }
  }

  /** A step adds to the count what is signalled and takes from it what is granted. */
  lemma UnitsKept(k: K, op: Op, o: nat)
    requires Inv(k) && Enabled(k, op) && k.cfg.IsSem(o) && op != Task(IniSem(o))
    ensures o < |k.q.cnt| && o < |Step(k, op).0.q.cnt|
    ensures Step(k, op).0.q.cnt[o] + Granted(k, op, o) == k.q.cnt[o] + Signalled(k, op, o)
  {
    hide Core, Inv, Served, ArgsOk, EndOf, DoFire;
    InvCore(k);
    CoreShape(k);
    ShapeSizes(k);
    WhoIsServed(k, op, o);
    match op
    case Task(call) =>
      RunnerRuns(k, k.c.run.value);
      CallUnits(k, k.c.run.value, call, o);
    case Intr(call) => CallUnits(k, 0, call, o);
    case Fire(b) => FireCounts(k, b);
    case _ =>
  }

  lemma FireCounts(k: K, b: Blk)
    requires Shape(k) && FireOk(k, b)
    ensures DoFire(k, b).q.cnt == k.q.cnt
  {
    hide EndWait;
    if b.Tsk? {
      EndWaitEnds(k, b.id, if k.t.tstat[b.id].fac.WaitDly? then E_OK else E_TMOUT, b.id);
    }
  }

  lemma CallUnits(k: K, r: nat, call: Call, o: nat)
    requires Core(k, -1, {}) && ArgsOk(k.cfg, call) && (!FromInterrupt(call) ==> r < |k.t.tstat| && k.t.tstat[r].Runnable?)
    requires k.cfg.IsSem(o) && call != IniSem(o)
    ensures Sane(k) && o < |k.q.cnt| == |k.q.wq|
    ensures var (k1, ret) := DoCall(k, r, call);
            && |k1.q.cnt| == |k.q.cnt|
            && k1.q.cnt[o] + (if call == SigSem(o) && k.q.wq[o] != [] then 1 else 0)
               + (if ret == Ret(E_OK) && (call == PolSem(o) || (call.WaiSem? && call.o == o)) then 1 else 0)
               == k.q.cnt[o] + if call == SigSem(o) && ret == Ret(E_OK) then 1 else 0
  {
    hide Core, DoCall, Sane, ArgsOk, FromInterrupt;
    SemaphoreFree(k, o);
    if OnSem(call) {
      SemUnits(k, r, call, o);
    } else {
      SameCounts(k, r, call);
    }
  }

  lemma SemUnits(k: K, r: nat, call: Call, o: nat)
    requires Core(k, -1, {}) && ArgsOk(k.cfg, call) && (!FromInterrupt(call) ==> r < |k.t.tstat| && k.t.tstat[r].Runnable?)
    requires OnSem(call) && k.cfg.IsSem(o) && call != IniSem(o)
    ensures Sane(k) && o < |k.q.cnt| == |k.q.wq|
    ensures var (k1, ret) := DoCall(k, r, call);
            && |k1.q.cnt| == |k.q.cnt|
            && k1.q.cnt[o] + (if call == SigSem(o) && k.q.wq[o] != [] then 1 else 0)
               + (if ret == Ret(E_OK) && (call == PolSem(o) || (call.WaiSem? && call.o == o)) then 1 else 0)
               == k.q.cnt[o] + if call == SigSem(o) && ret == Ret(E_OK) then 1 else 0
  {
    hide Core, Block, EndWait, PopWake, Drain, CeilOk, Period.Ok, Shape, CfgOk, WqOk, HeldOk;
    CoreShape(k);
    ShapeSizes(k);
    match call
    case SigSem(s) =>
      if k.q.wq[s] != [] {
        CoreLinks(k, -1, {});
        PopIsEndWait(k, -1, s, E_OK);
        EndWaitEnds(k, k.q.wq[s][0], E_OK, k.q.wq[s][0]);
      }
    case WaiSem(s, tmo) => BlockCounts(k, r, WaitObj(s), ArmOf(tmo));
    case PolSem(s) =>
    case IniSem(s) => DrainOk(k, s);
  }

  ghost function TotalSignalled(k: K, ops: seq<Op>, o: nat): nat
    requires IsRun(k, ops)
    decreases |ops|
  {
    if ops == [] then 0 else Signalled(k, ops[0], o) + TotalSignalled(Step(k, ops[0]).0, ops[1..], o)
  }

  ghost function TotalGranted(k: K, ops: seq<Op>, o: nat): nat
    requires IsRun(k, ops)
    decreases |ops|
  {
    if ops == [] then 0 else Granted(k, ops[0], o) + TotalGranted(Step(k, ops[0]).0, ops[1..], o)
  }

  /** Over any run without ini_sem, no unit of a semaphore is lost or made up: timeouts,
      forced releases and terminations of waiters included. */
  lemma {:induction false} UnitsConserved(k: K, ops: seq<Op>, o: nat)
    requires Inv(k) && IsRun(k, ops) && k.cfg.IsSem(o) && Task(IniSem(o)) !in ops
    ensures o < |k.q.cnt| && o < |After(k, ops).q.cnt|
    ensures After(k, ops).q.cnt[o] + TotalGranted(k, ops, o) == k.q.cnt[o] + TotalSignalled(k, ops, o)
    decreases |ops|
  {
    hide Inv, Core, Step, Enabled, Granted, Signalled;
    InvCore(k);
    SemaphoreFree(k, o);
    if ops != [] {
      assert ops[0] in ops && forall op :: op in ops[1..] ==> op in ops;
      UnitsKept(k, ops[0], o);
      StepInv(k, ops[0]);
      StepCfg(k, ops[0]);
      UnitsConserved(Step(k, ops[0]).0, ops[1..], o);
    }
  }
}
