/** Whole runs of the kernel: from start-up, through any sequence of steps. */
module Runs {
  import opened Basics
  import opened OrderedList
  import opened TimeEvent
  import opened KernelSpec
  import opened KernelInv
  import opened KernelCalls

  // ----- Start-up -----------------------------------------------------------

  /** All tasks dormant, nothing registered. */
  function Asleep(c: Cfg): K {
    var nt := |c.ipri|;
    K(c,
      Tasks(seq(nt, _ => Dormant), c.ipri, c.ipri, seq(nt, _ => []), seq(nt, _ => NoTimer),
            seq(nt, _ => Flags(false, false, false))),
      Queues([], seq(|c.obj|, _ => []), seq(|c.obj|, _ => None),
             seq(|c.obj|, o requires 0 <= o < |c.obj| => if c.obj[o].SemAttr? then c.obj[o].init else 0)),
      Timers(map[], seq(|c.cyc|, _ => false), seq(|c.cyc|, _ => 0), seq(c.nalm, _ => false), 0, false),
      Context(None, false, true, false, false))
  }

  /** The tasks with TA_ACT are activated in the order of the task table. */
  function ActivateAll(k: K, act: seq<nat>): K
    requires forall t :: t in act ==> t < |k.t.tstat|
    decreases |act|
  {
    if act == [] then k
    else
      assert act[0] in act && forall t :: t in act[1..] ==> t in act;
      ActivateAll(Activate(k, act[0]), act[1..])
  }

  /** The cyclic handlers with TA_STA are started, their phase counted from time 0. */
  function StartAll(k: K, sta: seq<nat>): (k1: K)
    requires |k.e.cycsta| == |k.e.evttim| == |k.cfg.cyc| && forall i :: i in sta ==> i < |k.cfg.cyc|
    ensures k1.t == k.t
    decreases |sta|
  {
    if sta == [] then k
    else
      assert sta[0] in sta && forall i :: i in sta[1..] ==> i in sta;
      var i, t := sta[0], k.cfg.cyc[sta[0]].cycphs;
      StartAll(k.(e := k.e.(cycsta := k.e.cycsta[i := true], evttim := k.e.evttim[i := t], tmr := k.e.tmr[Cyc(i) := t])),
               sta[1..])
  }

  predicate BootOk(c: Cfg, act: seq<nat>, sta: seq<nat>) {
    NoDup(act) && NoDup(sta) && (forall t :: t in act ==> t < |c.ipri|) && (forall i :: i in sta ==> i < |c.cyc|)
  }

  function Boot(c: Cfg, act: seq<nat>, sta: seq<nat>): K
    requires BootOk(c, act, sta)
  {
    Dispatch(ActivateAll(StartAll(Asleep(c), sta), act))
  }

  lemma AsleepCore(c: Cfg)
    requires CfgOk(c)
    ensures Core(Asleep(c), -1, {})
  {
    hide CfgOk;
    var k := Asleep(c);
    assert Shape(k) by { AsleepShape(c); }
    forall u | 0 <= u < |k.t.tstat|
      ensures PriAt(c, k.t, u) && IdleAt(c, k.t, u)
    {
    }
    AsleepClock(c);
    assert SemOk(c, k.q.cnt, k.q.wq) by { AsleepCounts(c); }
  }

  lemma AsleepShape(c: Cfg)
    requires CfgOk(c)
    ensures Shape(Asleep(c))
  {
  }

  lemma AsleepCounts(c: Cfg)
    requires CfgOk(c)
    ensures SemOk(c, Asleep(c).q.cnt, Asleep(c).q.wq)
  {
  }

  lemma AsleepClock(c: Cfg)
    requires CfgOk(c)
    ensures ClockOk(c, Asleep(c).e)
  {
  }

  lemma {:induction false} ActivateAllCore(k: K, act: seq<nat>)
    requires Core(k, -1, {}) && NoDup(act)
    requires forall t :: t in act ==> t < |k.t.tstat| && k.t.tstat[t].Dormant?
    ensures var k1 := ActivateAll(k, act);
            && Core(k1, -1, {}) && k1.cfg == k.cfg && k1.c == k.c && k1.e == k.e && k1.t.held == k.t.held
            && k1.q.wq == k.q.wq
    decreases |act|
  {
    hide Core;
    if act != [] {
      assert act[0] in act;
      CoreShape(k);
      ActivateCore(k, -1, {}, act[0]);
      forall t | t in act[1..]
        ensures t in act && t != act[0]
      {
        var j :| 0 <= j < |act[1..]| && act[1..][j] == t;
        assert act[j + 1] == t;
      }
      ActivateAllCore(Activate(k, act[0]), act[1..]);
    }
  }

  lemma {:induction false} StartAllCore(k: K, sta: seq<nat>)
    requires Core(k, -1, {}) && k.e.n == 0 && !k.e.ticking && forall i :: i in sta ==> i < |k.cfg.cyc|
    ensures |k.e.cycsta| == |k.e.evttim| == |k.cfg.cyc|
    ensures var k1 := StartAll(k, sta);
            Core(k1, -1, {}) && k1.cfg == k.cfg && k1.c == k.c && k1.e.n == 0 && !k1.e.ticking && k1.t == k.t && k1.q == k.q
    decreases |sta|
  {
    hide Core, Period.Ok;
    CoreShape(k);
    if sta != [] {
      assert sta[0] in sta && forall i :: i in sta[1..] ==> i in sta;
      var i, t := sta[0], k.cfg.cyc[sta[0]].cycphs;
      var e := k.e.(cycsta := k.e.cycsta[i := true], evttim := k.e.evttim[i := t], tmr := k.e.tmr[Cyc(i) := t]);
      PhaseInReach(k, i);
      HandlerPost(k, e);
      StartAllCore(k.(e := e), sta[1..]);
    }
  }

  lemma PhaseInReach(k: K, i: nat)
    requires Core(k, -1, {}) && k.e.n == 0 && !k.e.ticking && i < |k.cfg.cyc|
    ensures |k.e.cycsta| == |k.e.evttim| == |k.cfg.cyc|
    ensures var t := k.cfg.cyc[i].cycphs;
            var e := k.e.(cycsta := k.e.cycsta[i := true], evttim := k.e.evttim[i := t], tmr := k.e.tmr[Cyc(i) := t]);
            HandlersOk(e) && ClockOk(k.cfg, e)
  {
    hide Period.Ceil, Period.Floor, PriOk, IdleOk, SemOk, OwnOk, LinksOk, OrderOk;
  }

  lemma BootInv(c: Cfg, act: seq<nat>, sta: seq<nat>)
    requires CfgOk(c) && BootOk(c, act, sta)
    ensures Inv(Boot(c, act, sta))
  {
    hide Core;
    AsleepCore(c);
    StartAllCore(Asleep(c), sta);
    ActivateAllCore(StartAll(Asleep(c), sta), act);
    DispatchInv(ActivateAll(StartAll(Asleep(c), sta), act));
  }

  // ----- Runs ---------------------------------------------------------------

  ghost predicate IsRun(k: K, ops: seq<Op>)
    decreases |ops|
  {
    ops == [] || (Enabled(k, ops[0]) && IsRun(Step(k, ops[0]).0, ops[1..]))
  }

  ghost function After(k: K, ops: seq<Op>): K
    requires IsRun(k, ops)
    decreases |ops|
  {
    if ops == [] then k else After(Step(k, ops[0]).0, ops[1..])
  }

  /** The invariant holds throughout every run. */
  lemma {:induction false} RunInv(k: K, ops: seq<Op>)
    requires Inv(k) && IsRun(k, ops)
    ensures Inv(After(k, ops))
    decreases |ops|
  {
    hide Inv, Step, Enabled;
    if ops != [] {
      StepInv(k, ops[0]);
      RunInv(Step(k, ops[0]).0, ops[1..]);
    }
  }

  lemma {:induction false} RunSplit(k: K, a: seq<Op>, b: seq<Op>)
    requires IsRun(k, a) && IsRun(After(k, a), b)
    ensures IsRun(k, a + b) && After(k, a + b) == After(After(k, a), b)
    decreases |a|
  {
    hide Step, Enabled;
    if a == [] {
      assert a + b == b;
    } else {
      assert (a + b)[1..] == a[1..] + b;
      RunSplit(Step(k, a[0]).0, a[1..], b);
    }
  }

  /** A state that some run from start-up leads to. */
  ghost predicate Reachable(k: K) {
    exists c, act, sta, ops {:trigger IsRun(Boot(c, act, sta), ops)} ::
      CfgOk(c) && BootOk(c, act, sta) && IsRun(Boot(c, act, sta), ops) && k == After(Boot(c, act, sta), ops)
  }

  lemma ReachableInv(k: K)
    requires Reachable(k)
    ensures Inv(k)
  {
    hide Inv, Step, Enabled, CfgOk, Boot, BootOk;
    var c, act, sta, ops :|
      CfgOk(c) && BootOk(c, act, sta) && IsRun(Boot(c, act, sta), ops) && k == After(Boot(c, act, sta), ops);
    BootInv(c, act, sta);
    RunInv(Boot(c, act, sta), ops);
  }

  // ----- What the invariant says, and so what holds in every reachable state -

  /** A task's current priority is its base priority or the ceiling of a mutex it holds,
      whichever is highest, and no ceiling it holds or waits for is above its base priority. */
  lemma CurrentPriorityExact(k: K, t: nat)
    requires Inv(k) && t < |k.cfg.ipri|
    ensures |k.t.pri| == |k.t.bpri| == |k.t.held| == |k.t.tstat| == |k.cfg.ipri|
    ensures k.t.pri[t] <= k.t.bpri[t]
    ensures k.t.pri[t] == k.t.bpri[t] || exists m :: m in k.t.held[t] && k.cfg.Ceil(m) == Some(k.t.pri[t])
    ensures forall m :: m in k.t.held[t] && k.cfg.Ceil(m).Some? ==>
              k.t.pri[t] <= k.cfg.Ceil(m).value <= k.t.bpri[t]
    ensures forall m :: WaitsOn(k, t, m) && k.cfg.Ceil(m).Some? ==> k.cfg.Ceil(m).value <= k.t.bpri[t]
  {
    hide LinksOk, OrderOk, OwnOk, TmrOk, SemOk, IdleOk, ClockOk, RunOk, CfgOk;
    assert PriAt(k.cfg, k.t, t);
  }

  /** The highest task runs whenever dispatching is possible and no interrupt is being
      handled; inside an interrupt a dispatch that is due has been asked for. */
  lemma NoMissedDispatch(k: K)
    requires Inv(k) && Dsp(k)
    ensures !k.c.inint ==> k.c.run == Sched(k)
    ensures k.c.run != Sched(k) ==> k.c.reqflg
    ensures Sched(k) == None ==> forall t: nat :: t < |k.t.tstat| ==> !k.t.tstat[t].Runnable?
    ensures Sched(k).Some? ==>
              && Sched(k).value < |k.t.tstat| && k.t.tstat[Sched(k).value].Runnable?
              && forall t: nat :: t < |k.t.tstat| && k.t.tstat[t].Runnable? ==>
                   Pri(k.t.pri, Sched(k).value) <= Pri(k.t.pri, t)
  {
    hide OwnOk, PriOk, TmrOk, SemOk, IdleOk, ClockOk, CfgOk;
    assert forall t: nat :: t < |k.t.tstat| && k.t.tstat[t].Runnable? ==> t in k.q.rq;
    if k.q.rq != [] {
      assert k.q.rq[0] in k.q.rq;
    }
  }

  /** A task is in the ready list exactly if it is runnable, and in an object's wait queue
      exactly if it waits there; no queue holds a task twice. */
  lemma OneQueue(k: K, t: nat)
    requires Inv(k) && t < |k.cfg.ipri|
    ensures |k.t.tstat| == |k.cfg.ipri| && |k.q.wq| == |k.cfg.obj|
    ensures t in k.q.rq <==> k.t.tstat[t].Runnable?
    ensures forall o: nat :: o < |k.q.wq| ==> (t in k.q.wq[o] <==> WaitsOn(k, t, o))
    ensures NoDup(k.q.rq) && forall o: nat :: o < |k.q.wq| ==> NoDup(k.q.wq[o])
  {
    hide OrderOk, OwnOk, PriOk, TmrOk, SemOk, IdleOk, ClockOk, RunOk, CfgOk;
  }

  /** Priority-ordered queues are sorted by current priority, although priorities change. */
  lemma QueuesInOrder(k: K, o: nat)
    requires Inv(k) && o < |k.cfg.obj|
    ensures Sorted(k.q.rq, k.t.pri) && |k.q.wq| == |k.cfg.obj|
    ensures k.cfg.obj[o].tpri ==> Sorted(k.q.wq[o], k.t.pri)
  {
    hide LinksOk, OwnOk, PriOk, TmrOk, SemOk, IdleOk, ClockOk, RunOk, CfgOk;
  }

  /** The event blocks that should be registered. */
  ghost function Armed(k: K): set<Blk> {
    (set t | 0 <= t < |k.t.tstat| && t < |k.t.winfo| && k.t.tstat[t].Waiting? && k.t.winfo[t].Timer? :: Tsk(t))
    + (set i | 0 <= i < |k.e.cycsta| && k.e.cycsta[i] :: Cyc(i))
    + (set i | 0 <= i < |k.e.almsta| && k.e.almsta[i] :: Alm(i))
  }

  /** Exactly the armed timers are registered, so their number is the size of the heap. */
  lemma ArmedExactly(k: K)
    requires Inv(k)
    ensures k.e.tmr.Keys == Armed(k)
    ensures forall t: nat :: t < |k.t.tstat| && k.t.tstat[t].Waiting? && k.t.tstat[t].fac.WaitDly? ==> Tsk(t) in k.e.tmr
  {
    hide LinksOk, OrderOk, OwnOk, PriOk, SemOk, IdleOk, ClockOk, RunOk, CfgOk;
    forall b
      ensures b in k.e.tmr.Keys <==> b in Armed(k)
    {
      match b
      case Tsk(t) =>
      case Cyc(i) =>
      case Alm(i) =>
    }
  }

  /** A mutex is held by at most one task, its owner; one with waiters has an owner that
      is not among them. */
  lemma MutualExclusion(k: K, m: nat)
    requires Inv(k) && k.cfg.IsMtx(m)
    ensures |k.q.loc| == |k.q.wq| == |k.cfg.obj|
    ensures forall t: nat :: t < |k.t.held| ==> (m in k.t.held[t] <==> k.q.loc[m] == Some(t))
    ensures forall t: nat :: t < |k.t.held| ==> NoDup(k.t.held[t])
    ensures k.q.wq[m] != [] ==> k.q.loc[m].Some? && k.q.loc[m].value !in k.q.wq[m]
  {
    hide LinksOk, OrderOk, PriOk, TmrOk, SemOk, IdleOk, ClockOk, RunOk, CfgOk;
  }

  /** A terminated task owns nothing, and what it owned is free or has a new owner. */
  lemma TerminationReleases(k: K, t: nat, m: nat)
    requires Inv(k) && t < |k.t.tstat| && k.t.tstat[t].Dormant? && m < |k.q.loc|
    ensures |k.t.held| == |k.t.tstat| && k.t.held[t] == [] && k.q.loc[m] != Some(t)
  {
    hide LinksOk, OrderOk, PriOk, TmrOk, SemOk, ClockOk, RunOk, CfgOk;
    assert IdleAt(k.cfg, k.t, t);
  }

  /** In every reachable state the registered event blocks are the armed ones. */
  lemma TimersMatch(k: K)
    requires Reachable(k)
    ensures k.e.tmr.Keys == Armed(k)
    ensures forall t: nat :: t < |k.t.tstat| && k.t.tstat[t].Waiting? && k.t.tstat[t].fac.WaitDly? ==> Tsk(t) in k.e.tmr
  {
    hide Inv, Armed;
    ReachableInv(k);
    ArmedExactly(k);
  }

  /** The checks that restrict the steps to well-formed states cost nothing: what is
      enabled in a reachable state depends on context and arguments only. */
  lemma EnabledIff(k: K, op: Op)
    requires Inv(k)
    ensures Enabled(k, op) <==>
              match op
              case Task(call) => !k.c.inint && k.c.run.Some? && ArgsOk(k.cfg, call)
              case Intr(call) => k.c.inint && FromInterrupt(call) && ArgsOk(k.cfg, call)
              case EnterInt => !k.c.inint
              case ExitInt => k.c.inint && !k.e.ticking
              case TickBegin => k.c.inint && !k.e.ticking
              case Fire(b) => k.c.inint && k.e.ticking && IsNext(k, b)
              case TickEnd => k.c.inint && k.e.ticking && NothingDue(k)
  {
    hide Core, Sane, IsNext, NothingDue, Inv, FireOk;
    InvCore(k);
    CoreShape(k);
    if op.Fire? && IsNext(k, op.b) {
      NextRegistered(k, op.b);
      Registered(k, op.b);
    }
  }

  lemma NextRegistered(k: K, b: Blk)
    requires k.cfg.per.Ok() && IsNext(k, b)
    ensures b in k.e.tmr
  {
  }

  lemma Registered(k: K, b: Blk)
    requires Inv(k) && b in k.e.tmr
    ensures FireOk(k, b)
  {
    hide LinksOk, OrderOk, OwnOk, PriOk, SemOk, IdleOk, ClockOk, RunOk, CfgOk;
    match b
    case Tsk(t) =>
    case Cyc(i) =>
    case Alm(i) =>
  }

  // ----- Termination --------------------------------------------------------

  /** mutex_release_all gives each mutex of the list to its first waiter, or frees it. */
  lemma {:induction false} ReleaseListOwners(k: K, ms: seq<nat>)
    requires Shape(k) && WqOk(k) && CeilOk(k.cfg) && NoDup(ms)
    requires forall m :: m in ms ==> m < |k.cfg.obj|
    ensures var k1 := ReleaseList(k, ms);
            && |k1.q.loc| == |k.q.loc|
            && forall m :: 0 <= m < |k.q.loc| ==> k1.q.loc[m] == if m in ms then NextOwner(k, m) else k.q.loc[m]
    decreases |ms|
  {
    hide WqOk, CeilOk;
    if ms != [] {
      assert ms[0] in ms && forall m :: m in ms[1..] ==> m in ms;
      HandOverOk(k, ms[0]);
      HandOverOwners(k, ms[0]);
      ReleaseListOwners(HandOver(k, ms[0]), ms[1..]);
      assert ms[0] !in ms[1..];
    }
  }

  function NextOwner(k: K, m: nat): Option<nat>
    requires m < |k.q.wq|
  {
    if k.q.wq[m] == [] then None else Some(k.q.wq[m][0])
  }

  lemma HandOverOwners(k: K, m: nat)
    requires Shape(k) && WqOk(k) && m < |k.q.wq|
    requires k.q.wq[m] != [] ==> k.q.wq[m][0] < |k.t.tstat| && k.t.tstat[k.q.wq[m][0]].Waiting?
    ensures var k1 := HandOver(k, m);
            && k1.q.loc == k.q.loc[m := NextOwner(k, m)]
            && |k1.q.wq| == |k.q.wq|
            && forall o :: 0 <= o < |k.q.wq| && o != m ==> k1.q.wq[o] == k.q.wq[o]
  {
  }

  /** When a task terminates, every mutex it held goes to the first waiter or becomes
      free, and no other mutex changes its owner. */
  lemma TerminationHandsOver(k: K, t: nat)
    requires Inv(k) && t < |k.t.tstat| && !k.t.tstat[t].Dormant?
    requires k.c.run.Some? && !k.c.inint
    ensures var op := if k.c.run == Some(t) then Task(ExtTsk) else Task(TerTsk(t));
            && Enabled(k, op) &&
            var k1 := Step(k, op).0;
            && |k1.q.loc| == |k.q.loc| == |k.q.wq|
            && t < |k1.t.held| && k1.t.held[t] == []
            && (forall m :: 0 <= m < |k.q.loc| ==>
                  k1.q.loc[m] == if k.q.loc[m] == Some(t) then NextOwner(k, m) else k.q.loc[m])
  {
    hide Core, Inv, Terminate, Detach, Sane;
    InvCore(k);
    CoreShape(k);
    EnabledIff(k, if k.c.run == Some(t) then Task(ExtTsk) else Task(TerTsk(t)));
    OwnedExactly(k, t);
    if k.c.run == Some(t) {
      var k0 := k.(c := k.c.(disdsp := false, ipmflg := true));
      CoreContext(k, k0.c);
      RunnerRuns(k, t);
      DetachTerminates(k0, t);
      assert Detach(k0, t) == MakeNonRunnable(k0, t) by { DetachRunning(k0, t); }
    } else {
      DetachTerminates(k, t);
    }
  }

  lemma RunnerRuns(k: K, t: nat)
    requires Inv(k) && k.c.run == Some(t)
    ensures t < |k.t.tstat| && k.t.tstat[t].Runnable?
  {
    hide LinksOk, OrderOk, OwnOk, PriOk, TmrOk, SemOk, IdleOk, ClockOk, CfgOk;
  }

  lemma DetachRunning(k: K, t: nat)
    requires Shape(k) && t < |k.t.tstat| && k.t.tstat[t].Runnable?
    ensures Detach(k, t) == MakeNonRunnable(k, t)
  {
  }

  lemma OwnedExactly(k: K, t: nat)
    requires Core(k, -1, {}) && t < |k.t.held|
    ensures NoDup(k.t.held[t]) && |k.q.loc| == |k.q.wq| == |k.cfg.obj|
    ensures forall m :: 0 <= m < |k.q.loc| ==> (m in k.t.held[t] <==> k.q.loc[m] == Some(t))
  {
    hide LinksOk, OrderOk, PriOk, TmrOk, SemOk, IdleOk, ClockOk, CfgOk;
  }

  lemma DetachTerminates(k: K, t: nat)
    requires Core(k, -1, {}) && t < |k.t.tstat| && !k.t.tstat[t].Dormant?
    ensures Shape(k) && Sane(Detach(k, t))
    ensures |k.q.loc| == |k.q.wq|
    ensures var k1 := Terminate(Detach(k, t), t);
            && |k1.q.loc| == |k.q.loc|
            && t < |k1.t.held| && k1.t.held[t] == []
            && (forall m :: 0 <= m < |k.q.loc| ==>
                  k1.q.loc[m] == if k.q.loc[m] == Some(t) then NextOwner(k, m) else k.q.loc[m])
  {
    hide Core, ReleaseList, Detach;
    CoreShape(k);
    DetachCore(k, t);
    DetachSame(k, t);
    DetachQueues(k, t);
    var d := Detach(k, t);
    TerminateCore(d, t);
    OwnedExactly(k, t);
    var k0 := d.(t := d.t.(held := d.t.held[t := []]));
    ReleaseListOk(k0, d.t.held[t]);
    ReleaseListOwners(k0, d.t.held[t]);
  }

  /** A task that leaves its wait queue is not the first waiter of a mutex of its own. */
  lemma DetachQueues(k: K, t: nat)
    requires Core(k, -1, {}) && t < |k.t.tstat|
    ensures Shape(k)
    ensures Detach(k, t).q.loc == k.q.loc && |Detach(k, t).q.wq| == |k.q.wq| == |k.q.loc|
    ensures forall m :: 0 <= m < |k.q.loc| && k.q.loc[m] == Some(t) ==> Detach(k, t).q.wq[m] == k.q.wq[m]
  {
    hide OrderOk, PriOk, TmrOk, SemOk, IdleOk, ClockOk, CfgOk;
    assert forall m :: 0 <= m < |k.q.loc| && k.q.loc[m] == Some(t) ==> t !in k.q.wq[m];
  }
}

