/** Time in whole runs: the loop of signal_time ends and fires exactly what is due, in
    order; timeouts are neither early nor late; cyclic handlers do not drift. */
module Ticks {
  import opened Basics
  import opened OrderedList
  import opened TimeEvent
  import opened KernelSpec
  import opened KernelInv
  import opened KernelCalls
  import opened Runs

  // ----- What calls do to the registered events -----------------------------

  /** The event block that a call may register; `r` is the calling task, or -1. */
  predicate Arms(call: Call, r: int, b: Blk) {
    match call
    case StaCyc(i) => b == Cyc(i)
    case StaAlm(i, _) => b == Alm(i)
    case SlpTsk(_) => b.Tsk? && b.id == r
    case DlyTsk(_) => b.Tsk? && b.id == r
    case LocMtx(_, _) => b.Tsk? && b.id == r
    case WaiSem(_, _) => b.Tsk? && b.id == r
    case WaiQue(_, _) => b.Tsk? && b.id == r
    case _ => false
  }

  ghost predicate FewerTimers(e: Timers, e1: Timers) {
    && e1.evttim == e.evttim && e1.cycsta == e.cycsta
    && forall b {:trigger b in e1.tmr} {:trigger e1.tmr[b]} :: b in e1.tmr ==> b in e.tmr && e1.tmr[b] == e.tmr[b]
  }

  lemma FewerTrans(a: Timers, b: Timers, c: Timers)
    requires FewerTimers(a, b) && FewerTimers(b, c)
    ensures FewerTimers(a, c)
  {
  }

  /** A call leaves events alone, cancels them, or registers one after the current time. */
  ghost predicate TimersKept(k: K, k1: K, call: Call, r: int)
    requires k.cfg.per.Ok()
  {
    && |k1.e.evttim| == |k.e.evttim| && |k1.e.cycsta| == |k.e.cycsta|
    && (forall i {:trigger k1.e.evttim[i]} :: 0 <= i < |k.e.evttim| && call != StaCyc(i) ==>
          k1.e.evttim[i] == k.e.evttim[i])
    && (forall i {:trigger k1.e.cycsta[i]} :: 0 <= i < |k.e.cycsta| && call != StaCyc(i) && call != StpCyc(i) ==>
          k1.e.cycsta[i] == k.e.cycsta[i])
    && (forall b {:trigger b in k1.e.tmr} {:trigger k1.e.tmr[b]} :: b in k1.e.tmr ==>
          || (b in k.e.tmr && k1.e.tmr[b] == k.e.tmr[b])
          || (Base(k) <= k1.e.tmr[b] && Arms(call, r, b)))
  }

  lemma HandOverTimers(k: K, m: nat)
    requires Shape(k) && m < |k.q.wq|
    requires k.q.wq[m] != [] ==> k.q.wq[m][0] < |k.t.tstat| && k.t.tstat[k.q.wq[m][0]].Waiting?
    ensures FewerTimers(k.e, HandOver(k, m).e)
  {
  }

  lemma {:induction false} ReleaseListTimers(k: K, ms: seq<nat>)
    requires Shape(k) && WqOk(k) && CeilOk(k.cfg) && forall m :: m in ms ==> m < |k.cfg.obj|
    ensures FewerTimers(k.e, ReleaseList(k, ms).e)
    decreases |ms|
  {
    hide HandOver, WqOk, Shape, FewerTimers;
    if ms == [] {
      assert FewerTimers(k.e, k.e) by { SameTimers(k.e); }
    } else {
      assert ms[0] in ms && forall m :: m in ms[1..] ==> m in ms;
      ObjectQueue(k, ms[0]);
      HandOverOk(k, ms[0]);
      HandOverTimers(k, ms[0]);
      ReleaseListTimers(HandOver(k, ms[0]), ms[1..]);
      FewerTrans(k.e, HandOver(k, ms[0]).e, ReleaseList(k, ms).e);
    }
  }

  lemma ObjectQueue(k: K, m: nat)
    requires Shape(k) && m < |k.cfg.obj|
    ensures m < |k.q.wq|
  {
  }

  lemma SameTimers(e: Timers)
    ensures FewerTimers(e, e)
  {
  }

  lemma {:induction false} DrainTimers(k: K, o: nat)
    requires Shape(k) && WqOk(k) && o < |k.q.wq|
    ensures FewerTimers(k.e, Drain(k, o).e)
    decreases if o < |k.q.wq| then |k.q.wq[o]| else 0
  {
    hide WqOk, FewerTimers;
    if k.q.wq[o] == [] {
      SameTimers(k.e);
    } else {
      PopWakeOk(k, o, E_DLT);
      var k1 := PopWake(k, o, E_DLT);
      PopTimers(k, o, E_DLT);
      DrainTimers(k1, o);
      FewerTrans(k.e, k1.e, Drain(k1, o).e);
    }
  }

  lemma PopTimers(k: K, o: nat, er: Er)
    requires o < |k.q.wq| && k.q.wq[o] != []
    requires k.q.wq[o][0] < |k.t.winfo| == |k.t.tstat| && k.t.tstat[k.q.wq[o][0]].Waiting?
    ensures FewerTimers(k.e, PopWake(k, o, er).e)
  {
  }

  lemma TerminateTimers(k: K, t: nat)
    requires Sane(k) && t < |k.t.tstat|
    ensures FewerTimers(k.e, Terminate(k, t).e)
  {
    hide ReleaseList;
    var k0 := k.(t := k.t.(held := k.t.held[t := []]));
    ReleaseListOk(k0, k.t.held[t]);
    ReleaseListTimers(k0, k.t.held[t]);
  }

  lemma EndWaitTimers(k: K, t: nat, er: Er)
    requires t < |k.t.tstat| == |k.t.winfo| && k.t.tstat[t].Waiting?
    ensures FewerTimers(k.e, EndWait(k, t, er).e)
  {
    EndWaitFields(k, t, er);
  }

  lemma GiveUpTimers(k: K, t: nat, m: nat)
    requires Shape(k) && t < |k.t.tstat| && m < |k.q.wq|
    ensures GiveUp(k, t, m).e == k.e
  {
  }

  lemma AcquireTimers(k: K, t: nat, m: nat)
    requires Shape(k) && t < |k.t.tstat| && m < |k.q.wq|
    ensures Acquire(k, t, m).e == k.e
  {
  }

  lemma CallTimers(k: K, r: nat, call: Call)
    requires Sane(k) && ArgsOk(k.cfg, call) && (!FromInterrupt(call) ==> r < |k.t.tstat|)
    ensures TimersKept(k, DoCall(k, r, call).0, call, if FromInterrupt(call) then -1 else r)
  {
    hide Sane, ArgsOk, FromInterrupt, TimersKept;
    if OnMutex(call) {
      MutexTimers(k, r, call);
    } else if OnSem(call) {
      SemTimers(k, r, call);
    } else if OnQue(call) {
      QueTimers(k, r, call);
    } else if OnHandler(call) {
      HandlerTimers(k, r, call);
    } else if OnTask(call) {
      TaskTimers(k, r, call);
    } else {
      OtherTimers(k, r, call);
    }
  }

  lemma HandlerTimers(k: K, r: nat, call: Call)
    requires Sane(k) && ArgsOk(k.cfg, call) && (!FromInterrupt(call) ==> r < |k.t.tstat|) && OnHandler(call)
    ensures TimersKept(k, DoCall(k, r, call).0, call, if FromInterrupt(call) then -1 else r)
  {
    hide WqOk, HeldOk, CeilOk, Period.Ceil, Period.Ok;
  }

  lemma MutexTimers(k: K, r: nat, call: Call)
    requires Sane(k) && ArgsOk(k.cfg, call) && (!FromInterrupt(call) ==> r < |k.t.tstat|) && OnMutex(call)
    ensures TimersKept(k, DoCall(k, r, call).0, call, if FromInterrupt(call) then -1 else r)
  {
    hide WqOk, HeldOk, Drain, GiveUp, HandOver, Acquire, PopWake, Period.Ceil, Period.Ok, DoIniMtx, Block, CeilOk;
    match call
    case LocMtx(m, tmo) =>
      AcquireTimers(k, r, m);
      BlockTimers(k, r, WaitObj(m), ArmOf(tmo));
    case PlocMtx(m) => AcquireTimers(k, r, m);
    case UnlMtx(m) =>
      if k.q.loc[m] == Some(r) {
        GiveUpOk(k, r, m);
        HandOverOk(GiveUp(k, r, m), m);
        GiveUpTimers(k, r, m);
        HandOverTimers(GiveUp(k, r, m), m);
      }
    case IniMtx(m) => IniTimers(k, m);
  }

  lemma SemTimers(k: K, r: nat, call: Call)
    requires Sane(k) && ArgsOk(k.cfg, call) && (!FromInterrupt(call) ==> r < |k.t.tstat|) && OnSem(call)
    ensures TimersKept(k, DoCall(k, r, call).0, call, if FromInterrupt(call) then -1 else r)
  {
    hide WqOk, HeldOk, Drain, GiveUp, HandOver, Acquire, PopWake, Period.Ceil, Period.Ok, DoIniMtx, Block, CeilOk;
    match call
    case SigSem(o) =>
      if k.q.wq[o] != [] {
        PopWakeOk(k, o, E_OK);
        PopTimers(k, o, E_OK);
      }
    case WaiSem(o, tmo) => BlockTimers(k, r, WaitObj(o), ArmOf(tmo));
    case PolSem(o) =>
    case IniSem(o) => DrainTimers(k, o);
  }

  lemma QueTimers(k: K, r: nat, call: Call)
    requires Sane(k) && ArgsOk(k.cfg, call) && (!FromInterrupt(call) ==> r < |k.t.tstat|) && OnQue(call)
    ensures TimersKept(k, DoCall(k, r, call).0, call, if FromInterrupt(call) then -1 else r)
  {
    hide WqOk, HeldOk, Drain, WakeAll, Period.Ceil, Period.Ok, Block, CeilOk;
    match call
    case WaiQue(o, tmo) => BlockTimers(k, r, WaitObj(o), ArmOf(tmo));
    case WakQue(o, ts) => WakeAllTimers(k, o, ts);
    case IniQue(o, o2) =>
      DrainOk(k, o);
      DrainTimers(k, o);
      DrainTimers(Drain(k, o), o2);
      FewerTrans(k.e, Drain(k, o).e, Drain(Drain(k, o), o2).e);
  }

  lemma {:induction false} WakeAllTimers(k: K, o: nat, ts: seq<nat>)
    requires |k.t.tstat| == |k.t.winfo|
    ensures FewerTimers(k.e, WakeAll(k, o, ts).e)
    decreases |ts|
  {
    hide EndWait, FewerTimers;
    if ts == [] {
      SameTimers(k.e);
    } else if WaitsOn(k, ts[0], o) {
      EndWaitTimers(k, ts[0], E_OK);
      EndWaitFields(k, ts[0], E_OK);
      var k1 := EndWait(k, ts[0], E_OK);
      WakeAllTimers(k1, o, ts[1..]);
      FewerTrans(k.e, k1.e, WakeAll(k1, o, ts[1..]).e);
    } else {
      WakeAllTimers(k, o, ts[1..]);
    }
  }

  lemma TaskTimers(k: K, r: nat, call: Call)
    requires Sane(k) && ArgsOk(k.cfg, call) && (!FromInterrupt(call) ==> r < |k.t.tstat|)
    requires OnTask(call)
    ensures TimersKept(k, DoCall(k, r, call).0, call, if FromInterrupt(call) then -1 else r)
  {
    hide WqOk, HeldOk, EndWait, Period.Ceil, Period.Ok, Block, CeilOk, SetFlag, DoExtTsk, DoTerTsk, DoChgPri;
    match call
    case ExtTsk => ExtTimers(k, r);
    case TerTsk(t) => TerTimers(k, r, t);
    case ChgPri(t, p) => RebaseTimers(k, r, t, p);
    case SlpTsk(tmo) =>
      BlockTimers(k, r, WaitSlp, ArmOf(tmo));
      FlagTimers(k, r);
    case WupTsk(t) =>
      FlagTimers(k, t);
      if k.t.tstat[t].Waiting? { EndWaitTimers(k, t, E_OK); }
    case RelWai(t) => if k.t.tstat[t].Waiting? { EndWaitTimers(k, t, E_RLWAI); }
    case DlyTsk(d) => BlockTimers(k, r, WaitDly, Some(d));
  }

  lemma OtherTimers(k: K, r: nat, call: Call)
    requires Sane(k) && ArgsOk(k.cfg, call) && (!FromInterrupt(call) ==> r < |k.t.tstat|)
    requires !OnMutex(call) && !OnSem(call) && !OnQue(call) && !OnHandler(call) && !OnTask(call)
    ensures TimersKept(k, DoCall(k, r, call).0, call, if FromInterrupt(call) then -1 else r)
  {
    hide WqOk, HeldOk, Period.Ceil, Period.Ok, CeilOk, SetFlag, SetTstat, Rotate, InsertLast, Remove;
    match call
    case ActTsk(t) => FlagTimers(k, t);
    case SusTsk(t) => FlagTimers(k, t);
    case RsmTsk(t) => FlagTimers(k, t);
    case DisWai(t, _) => FlagTimers(k, t);
    case EnaWai(t) => FlagTimers(k, t);
    case RotRdq(p) => RotateTimers(k, if p.Some? then p.value else k.t.bpri[r]);
    case _ =>
  }

  lemma BlockTimers(k: K, r: nat, fac: Factor, arm: Option<nat>)
    requires Shape(k) && k.cfg.per.Ok() && r < |k.t.tstat| && (fac.WaitObj? ==> fac.o < |k.q.wq|)
    ensures var e1 := Block(k, r, fac, arm).e;
            && e1.evttim == k.e.evttim && e1.cycsta == k.e.cycsta
            && forall b :: b in e1.tmr ==>
                 || (b in k.e.tmr && e1.tmr[b] == k.e.tmr[b])
                 || (b == Tsk(r) && Base(k) <= e1.tmr[b])
  {
    hide Period.Ceil, Shape, Remove, Enqueue;
  }

  lemma FlagTimers(k: K, t: nat)
    requires Shape(k) && t < |k.t.tstat|
    ensures forall f :: SetFlag(k, t, f).e == k.e
    ensures forall s :: SetTstat(k, t, s).e == k.e
  {
  }

  lemma ExtTimers(k: K, r: nat)
    requires Sane(k) && r < |k.t.tstat|
    ensures FewerTimers(k.e, DoExtTsk(k, r).0.e)
  {
    hide WqOk, HeldOk, Terminate, FewerTimers, Remove;
    var k0 := MakeNonRunnable(k.(c := k.c.(disdsp := false, ipmflg := true)), r);
    SaneQueues(k, k0);
    TerminateTimers(k0, r);
  }

  lemma TerTimers(k: K, r: nat, t: nat)
    requires Sane(k) && t < |k.t.tstat|
    ensures FewerTimers(k.e, DoTerTsk(k, r, t).0.e)
  {
    hide WqOk, HeldOk, Terminate, FewerTimers, Remove, Detach;
    if t != r && !k.t.tstat[t].Dormant? {
      var k0 := Detach(k, t);
      DetachOk(k, t);
      assert HeldOk(k0) by { SameHeld(k, k0); }
      TerminateTimers(k0, t);
      DetachTimers(k, t);
      FewerTrans(k.e, k0.e, Terminate(k0, t).e);
    } else {
      SameTimers(k.e);
    }
  }

  lemma SameHeld(k: K, k0: K)
    requires HeldOk(k) && k0.cfg == k.cfg && k0.t == k.t
    ensures HeldOk(k0)
  {
  }

  lemma DetachTimers(k: K, t: nat)
    requires Shape(k) && t < |k.t.tstat|
    ensures FewerTimers(k.e, Detach(k, t).e)
  {
  }

  lemma RebaseTimers(k: K, r: nat, t: nat, p: Option<nat>)
    requires Sane(k) && t < |k.t.tstat| && r < |k.t.tstat|
    ensures DoChgPri(k, r, t, p).0.e == k.e
  {
    hide WqOk, HeldOk, Period.Ok, CheckCeil, HasCeil;
  }

  lemma RotateTimers(k: K, p: nat)
    ensures DoRotRdq(k, p).0.e == k.e
  {
  }

  lemma IniTimers(k: K, m: nat)
    requires Sane(k) && m < |k.q.wq|
    ensures FewerTimers(k.e, DoIniMtx(k, m).0.e)
  {
    hide WqOk, HeldOk, Drain, GiveUp, CeilOk;
    DrainOk(k, m);
    DrainTimers(k, m);
    var k1 := Drain(k, m);
    if k.q.loc[m].Some? && k.q.loc[m].value < |k.t.tstat| {
      GiveUpOk(k1, k.q.loc[m].value, m);
      GiveUpTimers(k1, k.q.loc[m].value, m);
    }
  }

  lemma SaneQueues(k: K, k0: K)
    requires Sane(k) && k0.cfg == k.cfg && k0.t == k.t && k0.e == k.e && k0.q.wq == k.q.wq && k0.q.loc == k.q.loc
    requires k0.q.cnt == k.q.cnt && k0.c.run == k.c.run
    ensures Sane(k0)
  {
    forall o | 0 <= o < |k0.q.wq|
      ensures NoDup(k0.q.wq[o]) && forall t :: t in k0.q.wq[o] ==> WaitsOn(k0, t, o)
    {
      assert forall t :: t in k.q.wq[o] ==> WaitsOn(k, t, o);
    }
  }

  // ----- The loop of signal_time --------------------------------------------

  /** How long the event of `b` has been due. */
  function Overdue(tmr: map<Blk, int>, cur: int, b: Blk): nat {
    if b in tmr && tmr[b] <= cur then cur - tmr[b] + 1 else 0
  }

  /** What the events of some blocks still have to catch up. */
  function Backlog(bs: seq<Blk>, tmr: map<Blk, int>, cur: int): nat {
    if bs == [] then 0 else Overdue(tmr, cur, bs[0]) + Backlog(bs[1..], tmr, cur)
  }

  /** All event blocks of the configuration. */
  function AllBlocks(c: Cfg): seq<Blk> {
    seq(|c.ipri|, t requires t >= 0 => Tsk(t)) + seq(|c.cyc|, i requires i >= 0 => Cyc(i))
    + seq(c.nalm, i requires i >= 0 => Alm(i))
  }

  ghost function Work(k: K): nat
    requires k.cfg.per.Ok()
  {
    Backlog(AllBlocks(k.cfg), k.e.tmr, Cur(k))
  }

  lemma {:induction false} BacklogShrinks(bs: seq<Blk>, tmr: map<Blk, int>, tmr1: map<Blk, int>, cur: int, b: Blk)
    requires forall x :: Overdue(tmr1, cur, x) <= Overdue(tmr, cur, x)
    ensures Backlog(bs, tmr1, cur) <= Backlog(bs, tmr, cur)
    ensures b in bs && Overdue(tmr1, cur, b) < Overdue(tmr, cur, b) ==> Backlog(bs, tmr1, cur) < Backlog(bs, tmr, cur)
  {
    if bs != [] {
      BacklogShrinks(bs[1..], tmr, tmr1, cur, b);
    }
  }

  lemma BlockListed(k: K, b: Blk)
    requires Inv(k) && b in k.e.tmr
    ensures b in AllBlocks(k.cfg)
  {
    hide LinksOk, OrderOk, OwnOk, PriOk, SemOk, IdleOk, ClockOk, RunOk, CfgOk;
    var c := k.cfg;
    match b
    case Tsk(t) => assert AllBlocks(c)[t] == b;
    case Cyc(i) => assert AllBlocks(c)[|c.ipri| + i] == b;
    case Alm(i) => assert AllBlocks(c)[|c.ipri| + |c.cyc| + i] == b;
  }

  /** The steps between the start and the end of a tick: events, and the calls of handlers. */
  predicate InTick(op: Op) {
    op.Fire? || op.Intr?
  }

  /** While a tick is processed no step makes any event more overdue, an event that
      happens takes its block at least one unit on, and whatever is registered lies ahead. */
  lemma TickStep(k: K, op: Op)
    requires Inv(k) && Enabled(k, op) && k.e.ticking && InTick(op)
    ensures var k1 := Step(k, op).0;
            && k1.cfg == k.cfg && k1.e.n == k.e.n && k1.e.ticking
            && (forall b :: b in k1.e.tmr ==> (b in k.e.tmr && k.e.tmr[b] <= k1.e.tmr[b]) || Cur(k) < k1.e.tmr[b])
            && (op.Fire? && op.b in k1.e.tmr ==> k.e.tmr[op.b] < k1.e.tmr[op.b])
  {
    hide DoCall, EndWait, Period.Ceil, Period.Floor, Sane, Inv;
    StillTicking(k, op);
    match op
    case Intr(call) =>
      InvSane(k);
      CallTimers(k, 0, call);
      BaseAhead(k);
    case Fire(b) => FireTimers(k, b);
  }

  lemma InvSane(k: K)
    requires Inv(k)
    ensures Sane(k) && Shape(k) && k.cfg.per.Ok() && (k.c.run.Some? ==> k.c.run.value < |k.t.tstat|)
  {
    hide Core, Inv;
    InvCore(k);
    CoreShape(k);
  }

  lemma BaseAhead(k: K)
    requires k.cfg.per.Ok()
    ensures Cur(k) < Base(k)
  {
    CeilTick(k.cfg.per, k.e.n);
  }

  lemma StillTicking(k: K, op: Op)
    requires Inv(k) && Enabled(k, op) && k.e.ticking && InTick(op)
    ensures var k1 := Step(k, op).0; k1.cfg == k.cfg && k1.e.n == k.e.n && k1.e.ticking
  {
    hide Core, DoCall, EndWait, Inv;
    InvCore(k);
    match op
    case Intr(call) => IntrCallPost(k, call);
    case Fire(b) =>
      if b.Tsk? {
        EndWaitFields(k, b.id, if k.t.tstat[b.id].fac.WaitDly? then E_OK else E_TMOUT);
      }
  }

  lemma FireTimers(k: K, b: Blk)
    requires Inv(k) && Enabled(k, Fire(b))
    ensures var k1 := DoFire(k, b);
            && (forall x :: x in k1.e.tmr && x != b ==> x in k.e.tmr && k1.e.tmr[x] == k.e.tmr[x])
            && (b in k1.e.tmr ==> b.Cyc? && b.id < |k.cfg.cyc| && k1.e.tmr[b] == k.e.tmr[b] + k.cfg.cyc[b.id].cyctim
                                  && k.e.tmr[b] < k1.e.tmr[b])
            && |k1.e.evttim| == |k.e.evttim| && k1.e.cycsta == k.e.cycsta
            && (forall i :: 0 <= i < |k.e.evttim| && b != Cyc(i) ==> k1.e.evttim[i] == k.e.evttim[i])
  {
    hide LinksOk, OrderOk, OwnOk, PriOk, SemOk, IdleOk, ClockOk, RunOk, EndWait, TmrOk, Period.Floor, Period.Ceil;
    TmrHandlers(k);
    if b.Tsk? {
      EndWaitFields(k, b.id, if k.t.tstat[b.id].fac.WaitDly? then E_OK else E_TMOUT);
    }
  }

  lemma TmrHandlers(k: K)
    requires Inv(k)
    ensures HandlersOk(k.e)
  {
    hide LinksOk, OrderOk, OwnOk, PriOk, SemOk, IdleOk, ClockOk, RunOk, CfgOk;
  }

  lemma WorkShrinks(k: K, op: Op)
    requires Inv(k) && Enabled(k, op) && k.e.ticking && InTick(op)
    ensures var k1 := Step(k, op).0;
            && k1.cfg == k.cfg
            && Work(k1) <= Work(k)
            && (op.Fire? ==> Work(k1) < Work(k))
  {
    hide Inv, Step, Enabled, AllBlocks, Period.Floor, Period.Ok;
    InvSane(k);
    TickStep(k, op);
    var k1 := Step(k, op).0;
    var b := if op.Fire? then op.b else Tsk(0);
    assert forall x :: Overdue(k1.e.tmr, Cur(k), x) <= Overdue(k.e.tmr, Cur(k), x);
    if op.Fire? {
      FiredNow(k, b);
      BlockListed(k, b);
    }
    BacklogShrinks(AllBlocks(k.cfg), k.e.tmr, k1.e.tmr, Cur(k), b);
  }

  lemma FiredNow(k: K, b: Blk)
    requires Inv(k) && Enabled(k, Fire(b))
    ensures b in k.e.tmr && k.e.tmr[b] <= Cur(k) && forall x :: x in k.e.tmr ==> k.e.tmr[b] <= k.e.tmr[x]
  {
    hide Inv, Sane;
  }

  function Fires(ops: seq<Op>): nat {
    if ops == [] then 0 else (if ops[0].Fire? then 1 else 0) + Fires(ops[1..])
  }

  /** The loop ends: however the handlers call the kernel, at most `Work` events happen
      in a tick. */
  lemma {:induction false} TickLoopEnds(k: K, ops: seq<Op>)
    requires Inv(k) && k.e.ticking && IsRun(k, ops) && forall i :: 0 <= i < |ops| ==> InTick(ops[i])
    ensures After(k, ops).cfg == k.cfg
    ensures Fires(ops) + Work(After(k, ops)) <= Work(k)
    decreases |ops|
  {
    hide Inv, Step, Enabled, Work, Period.Ok;
    InvSane(k);
    if ops != [] {
      var k1 := Step(k, ops[0]).0;
      WorkShrinks(k, ops[0]);
      TickStep(k, ops[0]);
      StepInv(k, ops[0]);
      TickLoopEnds(k1, ops[1..]);
    }
  }

  /** The loop can stop exactly when no event can happen, and then nothing is due. */
  lemma TickLoopStops(k: K)
    requires Inv(k) && k.e.ticking
    ensures Enabled(k, TickEnd) <==> forall b :: !Enabled(k, Fire(b))
    ensures Enabled(k, TickEnd) <==> Work(k) == 0
  {
    hide Inv, Sane, Period.Ok, Period.Floor, AllBlocks;
    InvSane(k);
    InTickInt(k);
    if !NothingDue(k) {
      var x :| x in k.e.tmr && k.e.tmr[x] <= Cur(k);
      var b := Earliest(k.e.tmr, k.e.tmr.Keys);
      Registered(k, b);
      assert IsNext(k, b);
      assert Enabled(k, Fire(b));
      BlockListed(k, b);
      BacklogPositive(AllBlocks(k.cfg), k.e.tmr, Cur(k), b);
    } else {
      BacklogZero(AllBlocks(k.cfg), k.e.tmr, Cur(k));
    }
  }

  lemma InTickInt(k: K)
    requires Inv(k) && k.e.ticking
    ensures k.c.inint
  {
    hide LinksOk, OrderOk, OwnOk, PriOk, SemOk, IdleOk, ClockOk, TmrOk, CfgOk;
  }

  lemma {:induction false} BacklogPositive(bs: seq<Blk>, tmr: map<Blk, int>, cur: int, b: Blk)
    requires b in bs && b in tmr && tmr[b] <= cur
    ensures Backlog(bs, tmr, cur) > 0
  {
    if bs[0] != b {
      BacklogPositive(bs[1..], tmr, cur, b);
    }
  }

  lemma {:induction false} BacklogZero(bs: seq<Blk>, tmr: map<Blk, int>, cur: int)
    requires forall x :: x in tmr ==> cur < tmr[x]
    ensures Backlog(bs, tmr, cur) == 0
  {
    if bs != [] {
      BacklogZero(bs[1..], tmr, cur);
    }
  }

  lemma {:induction false} Earliest(tmr: map<Blk, int>, bs: set<Blk>) returns (b: Blk)
    requires bs != {} && bs <= tmr.Keys
    ensures b in bs && forall x :: x in bs ==> tmr[b] <= tmr[x]
    decreases |bs|
  {
    b :| b in bs;
    if bs != {b} {
      var c := Earliest(tmr, bs - {b});
      b := if tmr[c] < tmr[b] then c else b;
    }
  }

  // ----- The order of events ------------------------------------------------

  /** The times of the events that happen in a run. */
  ghost function FiredTimes(k: K, ops: seq<Op>): seq<int>
    requires IsRun(k, ops)
    decreases |ops|
  {
    if ops == [] then []
    else
      (match ops[0] case Fire(b) => (if b in k.e.tmr then [k.e.tmr[b]] else []) case _ => [])
      + FiredTimes(Step(k, ops[0]).0, ops[1..])
  }

  predicate Ascending(s: seq<int>) {
    forall i, j :: 0 <= i < j < |s| ==> s[i] <= s[j]
  }

  /** Within a tick events happen in the order of their times, none after the current time. */
  lemma {:induction false} FiredInOrder(k: K, ops: seq<Op>, lo: int)
    requires Inv(k) && k.e.ticking && IsRun(k, ops) && forall i :: 0 <= i < |ops| ==> InTick(ops[i])
    requires lo <= Cur(k) && forall b :: b in k.e.tmr ==> lo <= k.e.tmr[b]
    ensures Ascending(FiredTimes(k, ops)) && |FiredTimes(k, ops)| == Fires(ops)
    ensures forall i :: 0 <= i < |FiredTimes(k, ops)| ==> lo <= FiredTimes(k, ops)[i] <= Cur(k)
    decreases |ops|
  {
    hide Inv, Step, Enabled, Period.Ok, Period.Floor;
    InvSane(k);
    if ops != [] {
      var k1 := Step(k, ops[0]).0;
      TickStep(k, ops[0]);
      StepInv(k, ops[0]);
      if ops[0].Fire? {
        FiredNow(k, ops[0].b);
        FiredInOrder(k1, ops[1..], k.e.tmr[ops[0].b]);
      } else {
        FiredInOrder(k1, ops[1..], lo);
      }
    }
  }

  /** An event happens in the first tick whose time reaches it. */
  lemma FiresInItsTick(k: K, b: Blk)
    requires Inv(k) && Enabled(k, Fire(b))
    ensures k.e.n > 0 && k.e.tmr[b] <= k.cfg.per.Floor(k.e.n)
    ensures k.e.n > 1 ==> k.cfg.per.Floor(k.e.n - 1) < k.e.tmr[b]
  {
    hide LinksOk, OrderOk, OwnOk, PriOk, SemOk, IdleOk, RunOk, TmrOk, CfgOk, Period.Floor, Period.Ceil, Sane;
    FiredNow(k, b);
  }

  // ----- Timeouts -----------------------------------------------------------

  /** The event of `b` stays registered through a run. */
  ghost predicate StaysArmed(k: K, ops: seq<Op>, b: Blk)
    requires IsRun(k, ops)
    decreases |ops|
  {
    b in k.e.tmr && (ops != [] ==> StaysArmed(Step(k, ops[0]).0, ops[1..], b))
  }

  /** No step moves the event of a task that keeps waiting. */
  lemma TimerStays(k: K, op: Op, t: nat)
    requires Inv(k) && Enabled(k, op) && Tsk(t) in k.e.tmr && Tsk(t) in Step(k, op).0.e.tmr
    ensures Step(k, op).0.e.tmr[Tsk(t)] == k.e.tmr[Tsk(t)]
  {
    hide DoCall, Sane, Inv, DoFire, Period.Ceil;
    InvSane(k);
    match op
    case Task(call) =>
      CallTimers(k, k.c.run.value, call);
      RunnerUnarmed(k);
    case Intr(call) => CallTimers(k, 0, call);
    case Fire(b) => FireTimers(k, b);
    case _ =>
  }

  lemma RunnerUnarmed(k: K)
    requires Inv(k) && k.c.run.Some?
    ensures Tsk(k.c.run.value) !in k.e.tmr
  {
    hide LinksOk, OrderOk, OwnOk, PriOk, SemOk, IdleOk, ClockOk, CfgOk;
  }

  lemma {:induction false} TimerStaysRun(k: K, ops: seq<Op>, t: nat)
    requires Inv(k) && IsRun(k, ops) && StaysArmed(k, ops, Tsk(t))
    ensures Tsk(t) in After(k, ops).e.tmr && After(k, ops).e.tmr[Tsk(t)] == k.e.tmr[Tsk(t)]
    decreases |ops|
  {
    hide Inv, Step, Enabled;
    if ops != [] {
      StepInv(k, ops[0]);
      TimerStays(k, ops[0], t);
      TimerStaysRun(Step(k, ops[0]).0, ops[1..], t);
    }
  }

  /** The relative time that a call waits for, if it waits with a timeout. */
  function Delay(call: Call): Option<nat> {
    match call
    case SlpTsk(tmo) => if tmo > 0 then Some(tmo) else None
    case DlyTsk(d) => Some(d)
    case LocMtx(_, tmo) => if tmo > 0 then Some(tmo) else None
    case WaiSem(_, tmo) => if tmo > 0 then Some(tmo) else None
    case WaiQue(_, tmo) => if tmo > 0 then Some(tmo) else None
    case _ => None
  }

  lemma BlockedUntil(k: K, call: Call)
    requires Inv(k) && Enabled(k, Task(call)) && Step(k, Task(call)).1.Blocks? && Delay(call).Some?
    ensures k.c.run.Some?
    ensures var k1 := Step(k, Task(call)).0;
            && Tsk(k.c.run.value) in k1.e.tmr
            && k1.e.tmr[Tsk(k.c.run.value)] == Base(k) + Delay(call).value
            && k1.cfg == k.cfg
  {
    hide Inv, WqOk, HeldOk, Terminate, EndWait, GiveUp, HandOver, Drain, PopWake, Acquire, Period.Ceil, Period.Ok, CfgOk;
    hide Enqueue, Remove;
    InvSane(k);
  }

  /** In units of 1 / deno milliseconds. */
  lemma TickBounds(per: Period, n0: nat, n: nat, d: nat, due: int)
    requires per.Ok() && n > 0
    requires due == per.Ceil(n0 + 1) + d && due <= per.Floor(n) && (n > 1 ==> per.Floor(n - 1) < due)
    ensures (n0 + 1) * per.nume + d * per.deno <= n * per.nume < n0 * per.nume + 2 * per.nume + (d + 1) * per.deno
  {
    hide Period.Ceil, Period.Floor, Period.Rest;
    var q := per.deno;
    var c := per.Ceil(n0 + 1);
    CeilTick(per, n0 + 1);
    assert due * q == c * q + d * q by { Distribute(c, d, q); }
    assert (d + 1) * q == d * q + q && (n0 + 1) * per.nume == n0 * per.nume + per.nume;
    TickAtOrAfter(per, n, due);
    TickBefore(per, n, due);
  }

  lemma TickAtOrAfter(per: Period, n: nat, due: int)
    requires per.Ok() && due <= per.Floor(n)
    ensures due * per.deno <= n * per.nume
  {
    hide Period.Floor;
    StepTick(per, n);
    ScaleLe(due, per.Floor(n), per.deno);
  }

  lemma TickBefore(per: Period, n: nat, due: int)
    requires per.Ok() && 0 < n && 0 < due && (n > 1 ==> per.Floor(n - 1) < due)
    ensures n * per.nume < due * per.deno + per.nume
  {
    hide Period.Floor;
    var q := per.deno;
    assert (n - 1) * per.nume == n * per.nume - per.nume;
    if n > 1 {
      StepTick(per, n - 1);
      ScaleLe(per.Floor(n - 1) + 1, due, q);
      assert (per.Floor(n - 1) + 1) * q == per.Floor(n - 1) * q + q;
    } else {
      ScaleLe(1, due, q);
    }
  }

  lemma ScaleLe(a: int, b: int, q: nat)
    requires a <= b
    ensures a * q <= b * q
  {
  }

  /** A call made at real time `now`, counted in units of 1/deno milliseconds, after a
      tick and before the next, waits for `d` milliseconds.  If the wait ends by its timeout, it does so in
      a tick that comes later than `d` milliseconds after the call, and earlier than
      `d + 1` milliseconds and two tick periods after it. */
  lemma TimeoutBounds(k: K, call: Call, ops: seq<Op>, now: real)
    requires Inv(k) && Enabled(k, Task(call)) && Step(k, Task(call)).1.Blocks? && Delay(call).Some?
    requires IsRun(Step(k, Task(call)).0, ops)
    requires StaysArmed(Step(k, Task(call)).0, ops, Tsk(k.c.run.value))
    requires Enabled(After(Step(k, Task(call)).0, ops), Fire(Tsk(k.c.run.value)))
    requires (k.e.n * k.cfg.per.nume) as real <= now < ((k.e.n + 1) * k.cfg.per.nume) as real
    ensures var per := k.cfg.per;
            var n := After(Step(k, Task(call)).0, ops).e.n;
            && (n * per.nume) as real > now + (Delay(call).value * per.deno) as real
            && (n * per.nume) as real < now + ((Delay(call).value + 1) * per.deno + 2 * per.nume) as real
  {
    hide Inv, Step, Enabled, Period.Ok, Period.Ceil, Period.Floor;
    InvSane(k);
    var k1 := Step(k, Task(call)).0;
    BlockedUntil(k, call);
    StepInv(k, Task(call));
    TimerStaysRun(k1, ops, k.c.run.value);
    RunInv(k1, ops);
    SameCfg(k1, ops);
    var k2 := After(k1, ops);
    FiresInItsTick(k2, Tsk(k.c.run.value));
    TickBounds(k.cfg.per, k.e.n, k2.e.n, Delay(call).value, k2.e.tmr[Tsk(k.c.run.value)]);
  }

  lemma {:induction false} SameCfg(k: K, ops: seq<Op>)
    requires Inv(k) && IsRun(k, ops)
    ensures After(k, ops).cfg == k.cfg
    decreases |ops|
  {
    hide Inv, Step, Enabled;
    if ops != [] {
      StepCfg(k, ops[0]);
      StepInv(k, ops[0]);
      SameCfg(Step(k, ops[0]).0, ops[1..]);
    }
  }

  lemma StepCfg(k: K, op: Op)
    requires Inv(k) && Enabled(k, op)
    ensures Step(k, op).0.cfg == k.cfg
  {
    hide Core, DoCall, Inv, EndWait;
    InvCore(k);
    match op
    case Task(call) => TaskCallPost(k, k.c.run.value, call);
    case Intr(call) => IntrCallPost(k, call);
    case Fire(b) =>
      if b.Tsk? {
        EndWaitFields(k, b.id, if k.t.tstat[b.id].fac.WaitDly? then E_OK else E_TMOUT);
      }
    case _ =>
  }

  // ----- Cyclic handlers ----------------------------------------------------

  predicate Restarts(op: Op, i: nat) {
    op == Task(StaCyc(i)) || op == Task(StpCyc(i))
  }

  function Activations(ops: seq<Op>, i: nat): nat {
    if ops == [] then 0 else (if ops[0] == Fire(Cyc(i)) then 1 else 0) + Activations(ops[1..], i)
  }

  lemma CyclicStep(k: K, op: Op, i: nat)
    requires Inv(k) && Enabled(k, op) && i < |k.cfg.cyc| && Cyc(i) in k.e.tmr && !Restarts(op, i)
    ensures var k1 := Step(k, op).0;
            && Cyc(i) in k1.e.tmr
            && k1.e.tmr[Cyc(i)] == k.e.tmr[Cyc(i)] + (if op == Fire(Cyc(i)) then k.cfg.cyc[i].cyctim else 0)
  {
    hide DoCall, Sane, Inv, DoFire, Period.Ceil;
    InvSane(k);
    var k1 := Step(k, op).0;
    StepInv(k, op);
    TmrHandlers(k);
    TmrHandlers(k1);
    match op
    case Task(call) => CallTimers(k, k.c.run.value, call);
    case Intr(call) => CallTimers(k, 0, call);
    case Fire(b) => FireTimers(k, b);
    case _ =>
  }

  /** The k-th activation after a start is due at the start time plus k periods: no drift. */
  lemma {:induction false} NoDrift(k: K, ops: seq<Op>, i: nat)
    requires Inv(k) && IsRun(k, ops) && i < |k.cfg.cyc| && Cyc(i) in k.e.tmr
    requires forall j :: 0 <= j < |ops| ==> !Restarts(ops[j], i)
    ensures Cyc(i) in After(k, ops).e.tmr
    ensures After(k, ops).e.tmr[Cyc(i)] == k.e.tmr[Cyc(i)] + Activations(ops, i) * k.cfg.cyc[i].cyctim
    decreases |ops|
  {
    hide Inv, Step, Enabled;
    if ops != [] {
      var k1 := Step(k, ops[0]).0;
      CyclicStep(k, ops[0], i);
      StepInv(k, ops[0]);
      StepCfg(k, ops[0]);
      NoDrift(k1, ops[1..], i);
      Distribute(if ops[0] == Fire(Cyc(i)) then 1 else 0, Activations(ops[1..], i), k.cfg.cyc[i].cyctim);
    }
  }

  lemma Distribute(a: nat, b: nat, c: nat)
    ensures (a + b) * c == a * c + b * c
  {
  }
}
