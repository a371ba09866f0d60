/** Requests that may have to wait for their turn: over whole runs no activation and no wakeup
    that was accepted is lost, and none has its effect twice. */
module Requests {
  import opened Basics
  import opened OrderedList
  import opened TimeEvent
  import opened KernelSpec
  import opened KernelInv
  import opened KernelCalls
  import opened Runs
  import opened Ticks
  import opened Waits
  import opened Effects
  import opened Laws

  // ----- Flags and dormancy after a step ------------------------------------

  /** The step ends task `v`. */
  predicate EndsTask(k: K, op: Op, ret: Ret, v: nat) {
    (op == Task(ExtTsk) && k.c.run == Some(v)) || (op == Task(TerTsk(v)) && ret == Ret(E_OK))
  }

  predicate Sleeps(k: K, v: nat) {
    v < |k.t.tstat| && k.t.tstat[v].Waiting? && k.t.tstat[v].fac.WaitSlp?
  }

  predicate Asks(op: Op, ret: Ret, call: Call) {
    Calls(op, call) && ret == Ret(E_OK)
  }

  /** What is queued for task `v` after a step, and whether its waits are forbidden. */
  function FlagAfter(k: K, op: Op, ret: Ret, v: nat): Flags
    requires v < |k.t.flag| == |k.t.tstat|
  {
    var f := k.t.flag[v];
    if EndsTask(k, op, ret, v) then Flags(false, false, false)
    else if Asks(op, ret, ActTsk(v)) && !k.t.tstat[v].Dormant? then f.(actque := true)
    else if Asks(op, ret, WupTsk(v)) && !Sleeps(k, v) then f.(wupque := true)
    else if op.Task? && op.call.SlpTsk? && ret == Ret(E_OK) && k.c.run == Some(v) then f.(wupque := false)
    else if Asks(op, ret, DisWai(v, true)) then f.(waifbd := true)
    else if Asks(op, ret, EnaWai(v)) then f.(waifbd := false)
    else f
  }

  predicate DormantAfter(k: K, op: Op, ret: Ret, v: nat)
    requires v < |k.t.flag| == |k.t.tstat|
  {
    if EndsTask(k, op, ret, v) then !k.t.flag[v].actque
    else k.t.tstat[v].Dormant? && !Calls(op, ActTsk(v))
  }

  /** The flags and the dormancy of task `v` after the step are as they should be. */
  ghost predicate AsQueued(k: K, op: Op, v: nat)
    requires Enabled(k, op)
  {
    var (k1, ret) := Step(k, op);
    && v < |k.t.flag| == |k.t.tstat| && v < |k1.t.flag| == |k1.t.tstat|
    && k1.t.flag[v] == FlagAfter(k, op, ret, v)
    && (k1.t.tstat[v].Dormant? <==> DormantAfter(k, op, ret, v))
  }

  lemma StatEndDormant(tstat: seq<TStat>, vs: seq<nat>, v: nat)
    requires v < |tstat|
    ensures |StatEnd(tstat, vs)| == |tstat| && (StatEnd(tstat, vs)[v].Dormant? <==> tstat[v].Dormant?)
  {
  }

  /** Where waits end, nothing is queued and nobody starts. */
  lemma WakesFlags(k: K, k1: K, vs: seq<nat>, er: Er, v: nat)
    requires WaitsEnd(k, k1, vs, er) && v < |k.t.tstat|
    ensures k1.t.flag == k.t.flag && |k1.t.tstat| == |k.t.tstat|
    ensures k1.t.tstat[v].Dormant? <==> k.t.tstat[v].Dormant?
  {
    hide StatEnd, InfoEnd, Without, TskBlks;
    StatEndDormant(k.t.tstat, vs, v);
  }

  lemma TaskRuns(k: K, call: Call)
    requires Inv(k) && Enabled(k, Task(call))
    ensures k.c.run.Some? && k.c.run.value < |k.t.tstat| && k.t.tstat[k.c.run.value].Runnable?
  {
    hide Inv;
    RunnerRuns(k, k.c.run.value);
  }

  lemma InvLengths(k: K)
    requires Inv(k)
    ensures |k.t.tstat| == |k.t.winfo| == |k.t.pri| == |k.t.bpri| == |k.t.held| == |k.t.flag| == |k.cfg.ipri|
    ensures |k.q.wq| == |k.q.loc| == |k.q.cnt| == |k.cfg.obj|
  {
    hide LinksOk, OrderOk, OwnOk, PriOk, TmrOk, SemOk, IdleOk, ClockOk, RunOk, CfgOk;
  }

  /** Most steps leave flags and dormancy alone. */
  predicate Quiet(op: Op) {
    (op.Task? || op.Intr?) ==>
      !op.call.ActTsk? && !op.call.WupTsk? && !op.call.SlpTsk? && !op.call.DisWai? && !op.call.EnaWai?
      && !op.call.ExtTsk? && !op.call.TerTsk?
  }

  lemma SameFlags(k: K, op: Op, v: nat)
    requires Inv(k) && Enabled(k, op) && Quiet(op) && v < |k.t.tstat|
    requires var k1 := Step(k, op).0;
             && k1.t.flag == k.t.flag && |k1.t.tstat| == |k.t.tstat|
             && (k1.t.tstat[v].Dormant? <==> k.t.tstat[v].Dormant?)
    ensures AsQueued(k, op, v)
  {
    hide Inv, Enabled, Step;
    InvLengths(k);
  }

  lemma WaitFlags(k: K, call: Call, v: nat)
    requires Inv(k) && Enabled(k, Task(call)) && MayWait(call) && v < |k.t.tstat|
    ensures AsQueued(k, Task(call), v)
  {
    hide Inv, Enabled, Step, LinesUp, Remove, MaybeMoves;
    WaitCalls(k, call);
    TaskRuns(k, call);
    InvLengths(k);
  }

  lemma RequestFlags(k: K, op: Op, call: Call, v: nat)
    requires Inv(k) && Enabled(k, op) && Calls(op, call) && (call.ActTsk? || call.WupTsk?) && v < |k.t.tstat|
    ensures AsQueued(k, op, v)
  {
    hide Inv, Enabled, Step, LinesUp, WaitsEnd;
    InvLengths(k);
    match call
    case ActTsk(t) => Activated(k, op, t);
    case WupTsk(t) =>
      WokenUp(k, op, t);
      if Sleeps(k, t) { WakesFlags(k, Step(k, op).0, [t], E_OK, v); }
  }

  lemma ForbidFlags(k: K, op: Op, call: Call, v: nat)
    requires Inv(k) && Enabled(k, op) && Calls(op, call) && (call.DisWai? || call.EnaWai?) && v < |k.t.tstat|
    ensures AsQueued(k, op, v)
  {
    hide Inv, Enabled, Step;
    InvLengths(k);
    match call
    case DisWai(t, x) => WaitsForbidden(k, op, t, x);
    case EnaWai(t) => WaitsAllowed(k, op, t);
  }

  lemma OtherFlags(k: K, op: Op, call: Call, v: nat)
    requires Inv(k) && Enabled(k, op) && Calls(op, call) && v < |k.t.tstat|
    requires call.RelWai? || call.SusTsk? || call.RsmTsk? || call.ChgPri?
    ensures AsQueued(k, op, v)
  {
    hide Inv, Enabled, Step, LinesUp, WaitsEnd, Moves, Remove, Core, Sane, DoCall, AsQueued;
    InvLengths(k);
    OnlyFromTasks(k, op);
    Lift(k, op, call);
    match call {
      case RelWai(t) =>
        Released(k, op, t);
        if k.t.tstat[t].Waiting? { WakesFlags(k, Step(k, op).0, [t], E_RLWAI, v); }
      case SusTsk(t) => IsSuspended(k, t);
      case RsmTsk(t) => Resumed(k, t);
      case ChgPri(t, p) => Rebased(k, t, p);
    }
    SameFlags(k, op, v);
  }

  lemma EndFlags(k: K, call: Call, v: nat)
    requires Inv(k) && Enabled(k, Task(call)) && (call.ExtTsk? || call.TerTsk?) && v < |k.t.tstat|
    ensures AsQueued(k, Task(call), v)
  {
    hide Inv, Enabled, Step, LinesUp, StatEnd, InfoEnd, Woken, Heirs, Won, Without, TskBlks;
    InvLengths(k);
    TaskRuns(k, call);
    var r := k.c.run.value;
    match call
    case ExtTsk =>
      Exits(k);
      StatEndDormant(k.t.tstat, Heirs(k.q.wq, k.t.held[r]), v);
    case TerTsk(t) =>
      Terminated(k, t);
      StatEndDormant(k.t.tstat, Heirs(k.q.wq, k.t.held[t]), v);
  }

  lemma MutexFlags(k: K, call: Call, v: nat)
    requires Inv(k) && Enabled(k, Task(call)) && (call.PlocMtx? || call.UnlMtx? || call.IniMtx?) && v < |k.t.tstat|
    ensures AsQueued(k, Task(call), v)
  {
    hide Inv, Enabled, Step, LinesUp, WaitsEnd, MaybeMoves, Remove, AsQueued;
    InvLengths(k);
    var k1 := Step(k, Task(call)).0;
    match call {
      case PlocMtx(m) => LockedOrNot(k, m);
      case UnlMtx(m) =>
        Unlocked(k, m);
        if Step(k, Task(call)).1 == Ret(E_OK) {
          WakesFlags(k, k1, Heirs(k.q.wq, [m]), E_OK, v);
        }
      case IniMtx(m) =>
        MutexReset(k, m);
        if k.q.loc[m].Some? {
          var k0 :| Wakes(k, k0, k.q.wq[m], E_DLT) && GivesUp(k0, k1, k.q.loc[m].value, m);
          WakesFlags(k, k0, k.q.wq[m], E_DLT, v);
        }
    }
    SameFlags(k, Task(call), v);
  }

  lemma QueueFlags(k: K, op: Op, call: Call, v: nat)
    requires Inv(k) && Enabled(k, op) && Calls(op, call) && v < |k.t.tstat|
    requires call.SigSem? || call.PolSem? || call.IniSem? || call.WakQue? || call.IniQue?
    ensures AsQueued(k, op, v)
  {
    hide Inv, Enabled, Step, LinesUp, WaitsEnd, Core, Sane, DoCall, AsQueued;
    InvLengths(k);
    OnlyFromTasks(k, op);
    Lift(k, op, call);
    var k1 := Step(k, op).0;
    match call {
      case SigSem(o) =>
        Signals(k, op, o);
        if k.q.wq[o] != [] { WakesFlags(k, k1, [k.q.wq[o][0]], E_OK, v); }
      case PolSem(o) => TakesUnit(k, o);
      case IniSem(o) =>
        SemaphoreReset(k, o);
        WakesFlags(k, k1.(q := k1.q.(cnt := k.q.cnt)), k.q.wq[o], E_DLT, v);
      case WakQue(o, ts) =>
        Serves(k, op, o, ts);
        WakesFlags(k, k1, Named(k.t.tstat, o, ts, {}), E_OK, v);
      case IniQue(o, o2) =>
        QueuesReset(k, o, o2);
        WakesFlags(k, k1, k.q.wq[o] + (if o2 == o then [] else k.q.wq[o2]), E_DLT, v);
    }
    SameFlags(k, op, v);
  }

  lemma SystemFlags(k: K, op: Op, call: Call, v: nat)
    requires Inv(k) && Enabled(k, op) && Calls(op, call) && v < |k.t.tstat|
    requires call.RotRdq? || call.DisDsp? || call.EnaDsp? || call.ChgIpm? || OnHandler(call)
    ensures AsQueued(k, op, v)
  {
    hide Inv, Enabled, Step, Core, Sane, DoCall, Level, AsQueued, Period.Ceil, Shape;
    InvLengths(k);
    OnlyFromTasks(k, op);
    Lift(k, op, call);
    match call {
      case RotRdq(p) => Rotated(k, op, p);
      case StaCyc(i) => CyclicStarted(k, i);
      case StpCyc(i) => CyclicStopped(k, i);
      case StaAlm(i, d) => AlarmStarted(k, op, i, d);
      case StpAlm(i) => AlarmStopped(k, op, i);
      case _ => Elsewhere(k, op);
    }
    SameFlags(k, op, v);
  }

  lemma EventFlags(k: K, op: Op, v: nat)
    requires Inv(k) && Enabled(k, op) && !op.Task? && !op.Intr? && v < |k.t.tstat|
    ensures AsQueued(k, op, v)
  {
    hide Inv, Step, Enabled, Core, Sane, DoCall, LinesUp, WaitsEnd;
    InvLengths(k);
    match op
    case Fire(b) =>
      Happens(k, b);
      if b.Tsk? {
        WakesFlags(k, Step(k, op).0, [b.id], if k.t.tstat[b.id].fac.WaitDly? then E_OK else E_TMOUT, v);
      }
    case _ => Elsewhere(k, op);
  }

  /** Flags and dormancy change as they should in every step, and not otherwise. */
  lemma FlagsFollow(k: K, op: Op, v: nat)
    requires Inv(k) && Enabled(k, op) && v < |k.t.tstat|
    ensures AsQueued(k, op, v)
  {
    hide Inv, Step, Enabled, AsQueued;
    if !op.Task? && !op.Intr? {
      EventFlags(k, op, v);
    } else {
      OnlyFromTasks(k, op);
      var call := op.call;
      if MayWait(call) {
        WaitFlags(k, call, v);
      } else if call.ActTsk? || call.WupTsk? {
        RequestFlags(k, op, call, v);
      } else if call.DisWai? || call.EnaWai? {
        ForbidFlags(k, op, call, v);
      } else if call.RelWai? || call.SusTsk? || call.RsmTsk? || call.ChgPri? {
        OtherFlags(k, op, call, v);
      } else if call.ExtTsk? || call.TerTsk? {
        EndFlags(k, call, v);
      } else if call.PlocMtx? || call.UnlMtx? || call.IniMtx? {
        MutexFlags(k, call, v);
      } else if call.SigSem? || call.PolSem? || call.IniSem? || call.WakQue? || call.IniQue? {
        QueueFlags(k, op, call, v);
      } else {
        SystemFlags(k, op, call, v);
      }
    }
  }

  lemma OnlyFromTasks(k: K, op: Op)
    requires Enabled(k, op)
    ensures op.Intr? ==> FromInterrupt(op.call)
  {
    hide Sane;
  }

  // ----- Activations --------------------------------------------------------

  function One(b: bool): nat {
    if b then 1 else 0
  }

  predicate IsDormant(k: K, t: nat) {
    t < |k.t.tstat| && k.t.tstat[t].Dormant?
  }

  /** An activation of task `t` is accepted. */
  ghost function Accepted(k: K, op: Op, t: nat): nat
    requires Enabled(k, op)
  {
    One(Asks(op, Step(k, op).1, ActTsk(t)))
  }

  /** Task `t` starts from the beginning: it was dormant, or has just ended, and is not dormant. */
  ghost function Started(k: K, op: Op, t: nat): nat
    requires Enabled(k, op)
  {
    One((IsDormant(k, t) || EndsTask(k, op, Step(k, op).1, t)) && !IsDormant(Step(k, op).0, t))
  }

  function PendingActivation(k: K, t: nat): nat {
    if t < |k.t.flag| then One(k.t.flag[t].actque) else 0
  }

  lemma ActivationKept(k: K, op: Op, t: nat)
    requires Inv(k) && Enabled(k, op) && t < |k.t.tstat|
    ensures Accepted(k, op, t) + PendingActivation(k, t) == Started(k, op, t) + PendingActivation(Step(k, op).0, t)
  {
    hide Inv, Enabled, Step, GetsReady;
    FlagsFollow(k, op, t);
    DormantFlags(k, t);
    if Calls(op, ActTsk(t)) {
      Activated(k, op, t);
    }
  }

  lemma DormantFlags(k: K, t: nat)
    requires Inv(k) && t < |k.t.tstat|
    ensures t < |k.t.flag|
    ensures k.t.tstat[t].Dormant? ==> k.t.flag[t] == Flags(false, false, false)
    ensures Sleeps(k, t) ==> !k.t.flag[t].wupque
  {
    hide Core, Inv;
    InvCore(k);
    InvLengths(k);
    SleepFlag(k, t);
  }

  ghost function TotalAccepted(k: K, ops: seq<Op>, t: nat): nat
    requires IsRun(k, ops)
    decreases |ops|
  {
    if ops == [] then 0 else Accepted(k, ops[0], t) + TotalAccepted(Step(k, ops[0]).0, ops[1..], t)
  }

  ghost function TotalStarted(k: K, ops: seq<Op>, t: nat): nat
    requires IsRun(k, ops)
    decreases |ops|
  {
    if ops == [] then 0 else Started(k, ops[0], t) + TotalStarted(Step(k, ops[0]).0, ops[1..], t)
  }

  /** Over any run, every activation that act_tsk accepts starts the task once, except one that
      is still queued at the end. */
  lemma {:induction false} ActivationsConserved(k: K, ops: seq<Op>, t: nat)
    requires Inv(k) && IsRun(k, ops) && t < |k.t.tstat|
    ensures TotalAccepted(k, ops, t) + PendingActivation(k, t)
              == TotalStarted(k, ops, t) + PendingActivation(After(k, ops), t)
    decreases |ops|
  {
    hide Inv, Enabled, Step, PendingActivation, Accepted, Started;
    if ops != [] {
      var k1 := Step(k, ops[0]).0;
      ActivationKept(k, ops[0], t);
      SameTasks(k, ops[0], t);
      StepInv(k, ops[0]);
      ActivationsConserved(k1, ops[1..], t);
    }
  }

  lemma SameTasks(k: K, op: Op, t: nat)
    requires Inv(k) && Enabled(k, op) && t < |k.t.tstat|
    ensures t < |Step(k, op).0.t.tstat|
  {
    hide Inv, Enabled, Step;
    FlagsFollow(k, op, t);
  }

  // ----- Wakeups ------------------------------------------------------------

  /** A wakeup of task `t` is accepted. */
  ghost function WakeupAccepted(k: K, op: Op, t: nat): nat
    requires Enabled(k, op)
  {
    One(Asks(op, Step(k, op).1, WupTsk(t)))
  }

  function PendingWakeup(k: K, t: nat): nat {
    if t < |k.t.flag| then One(k.t.flag[t].wupque) else 0
  }

  /** Task `t` calls slp_tsk and goes on at once, or its sleep ends with E_OK. */
  ghost function SleepGranted(k: K, op: Op, t: nat): nat
    requires Enabled(k, op)
  {
    var (k1, ret) := Step(k, op);
    One(|| (op.Task? && op.call.SlpTsk? && k.c.run == Some(t) && ret == Ret(E_OK))
        || (Sleeps(k, t) && !EndsTask(k, op, ret, t) && WokenOk(k.t, k1.t, t)))
  }

  /** Task `t` ends with a wakeup queued. */
  ghost function WakeupDropped(k: K, op: Op, t: nat): nat
    requires Enabled(k, op)
  {
    if EndsTask(k, op, Step(k, op).1, t) then PendingWakeup(k, t) else 0
  }

  lemma WakeupKept(k: K, op: Op, t: nat)
    requires Inv(k) && Enabled(k, op) && t < |k.t.tstat|
    ensures WakeupAccepted(k, op, t) + PendingWakeup(k, t)
              == SleepGranted(k, op, t) + WakeupDropped(k, op, t) + PendingWakeup(Step(k, op).0, t)
  {
    hide Inv, Enabled, Step, Wakes, LinesUp;
    FlagsFollow(k, op, t);
    DormantFlags(k, t);
    if Calls(op, WupTsk(t)) {
      WokenUp(k, op, t);
    }
    if op.Task? && op.call.SlpTsk? {
      TaskRuns(k, op.call);
      WhoWaits(k, op.call);
    }
    if Sleeps(k, t) {
      SleepEnds(k, op, t);
    }
  }

  /** A sleep ends with E_OK exactly if wup_tsk ends it. */
  lemma SleepEnds(k: K, op: Op, t: nat)
    requires Inv(k) && Enabled(k, op) && Sleeps(k, t)
    ensures !EndsTask(k, op, Step(k, op).1, t) ==> (WokenOk(k.t, Step(k, op).0.t, t) <==> Calls(op, WupTsk(t)))
    ensures Calls(op, WupTsk(t)) ==> Step(k, op).1 == Ret(E_OK)
  {
    hide Inv, Enabled, Step, Wakes, First;
    WaitEnds(k, op, t);
    OnlyFromTasks(k, op);
    if Calls(op, WupTsk(t)) {
      WokenUp(k, op, t);
    }
    if op == Task(TerTsk(t)) {
      Terminated(k, t);
      TaskRuns(k, op.call);
    }
  }

  ghost function TotalWakeups(k: K, ops: seq<Op>, t: nat): nat
    requires IsRun(k, ops)
    decreases |ops|
  {
    if ops == [] then 0 else WakeupAccepted(k, ops[0], t) + TotalWakeups(Step(k, ops[0]).0, ops[1..], t)
  }

  ghost function TotalSleeps(k: K, ops: seq<Op>, t: nat): nat
    requires IsRun(k, ops)
    decreases |ops|
  {
    if ops == [] then 0
    else
      SleepGranted(k, ops[0], t) + WakeupDropped(k, ops[0], t) + TotalSleeps(Step(k, ops[0]).0, ops[1..], t)
  }

  /** Over any run, every wakeup that wup_tsk accepts ends one sleep or saves one, except those
      queued when the task ends and one that is still queued at the end. */
  lemma {:induction false} WakeupsConserved(k: K, ops: seq<Op>, t: nat)
    requires Inv(k) && IsRun(k, ops) && t < |k.t.tstat|
    ensures TotalWakeups(k, ops, t) + PendingWakeup(k, t)
              == TotalSleeps(k, ops, t) + PendingWakeup(After(k, ops), t)
    decreases |ops|
  {
    hide Inv, Enabled, Step, PendingWakeup, WakeupAccepted, SleepGranted, WakeupDropped;
    if ops != [] {
      var k1 := Step(k, ops[0]).0;
      WakeupKept(k, ops[0], t);
      SameTasks(k, ops[0], t);
      StepInv(k, ops[0]);
      WakeupsConserved(k1, ops[1..], t);
    }
  }
}
