/** What each service call does: when it answers what, and what it leaves behind, said about
    the tables before and after a step, apart from how the call gets there.  With the
    invariant of the state that is left, every law says the whole effect of its call: the
    invariant has the current priorities and the registered timers follow from the rest. */
module Laws {
  import opened Basics
  import opened OrderedList
  import opened TimeEvent
  import opened KernelSpec
  import opened KernelInv
  import opened KernelCalls
  import opened Runs
  import opened Ticks
  import opened Effects

  /** The step is a call, by the running task or by an interrupt handler. */
  predicate Calls(op: Op, call: Call) {
    op == Task(call) || op == Intr(call)
  }

  function Caller(k: K, op: Op): nat {
    if op.Task? && k.c.run.Some? then k.c.run.value else 0
  }

  predicate SameTables(k: K, k1: K) {
    k1.cfg == k.cfg && k1.t == k.t && k1.q == k.q && k1.e == k.e
  }

  /** Only the dispatch at its end sets a step apart from the call. */
  lemma Lift(k: K, op: Op, call: Call)
    requires Inv(k) && Enabled(k, op) && Calls(op, call)
    ensures Core(k, -1, {}) && Sane(k) && ArgsOk(k.cfg, call) && (op.Intr? ==> FromInterrupt(call))
    ensures !FromInterrupt(call) ==> Caller(k, op) < |k.t.tstat| && k.t.tstat[Caller(k, op)].Runnable?
    ensures var (k1, ret) := DoCall(k, Caller(k, op), call); SameTables(k1, Step(k, op).0) && Step(k, op).1 == ret
  {
    hide Core, Inv, DoCall, Sane, ArgsOk;
    InvCore(k);
    if op.Task? {
      RunnerRuns(k, k.c.run.value);
    }
  }

  // ----- Calls that may wait ------------------------------------------------

  predicate MayWait(call: Call) {
    call.SlpTsk? || call.DlyTsk? || call.LocMtx? || call.WaiSem? || call.WaiQue?
  }

  /** What the call waits for. */
  function Goal(call: Call): Factor
    requires MayWait(call)
  {
    match call
    case SlpTsk(_) => WaitSlp
    case DlyTsk(_) => WaitDly
    case LocMtx(m, _) => WaitObj(m)
    case WaiSem(o, _) => WaitObj(o)
    case WaiQue(o, _) => WaitObj(o)
  }

  /** The call gives a time that it may give, and it is not zero. */
  predicate Patient(call: Call)
    requires MayWait(call)
  {
    match call
    case DlyTsk(d) => d <= TMAX_RELTIM
    case SlpTsk(tmo) => tmo == TMO_FEVR || tmo > 0
    case LocMtx(_, tmo) => tmo == TMO_FEVR || tmo > 0
    case WaiSem(_, tmo) => tmo == TMO_FEVR || tmo > 0
    case WaiQue(_, tmo) => tmo == TMO_FEVR || tmo > 0
  }

  /** The call only asks and never waits. */
  predicate Polls(call: Call)
    requires MayWait(call)
  {
    match call
    case DlyTsk(_) => false
    case SlpTsk(tmo) => tmo == TMO_POL
    case LocMtx(_, tmo) => tmo == TMO_POL
    case WaiSem(_, tmo) => tmo == TMO_POL
    case WaiQue(_, tmo) => tmo == TMO_POL
  }

  /** What the call waits for is there already. */
  predicate There(k: K, r: nat, call: Call)
    requires Shape(k) && r < |k.t.tstat| && MayWait(call) && ArgsOk(k.cfg, call)
  {
    match call
    case SlpTsk(_) => k.t.flag[r].wupque
    case DlyTsk(_) => false
    case LocMtx(m, _) => k.q.loc[m] == None
    case WaiSem(o, _) => k.q.cnt[o] > 0
    case WaiQue(_, _) => false
  }

  /** The base priority of task `r` is above the ceiling of mutex `m`. */
  predicate AboveCeiling(k: K, r: nat, m: nat)
    requires Shape(k) && r < |k.t.tstat|
  {
    k.cfg.Ceil(m).Some? && k.t.bpri[r] < k.cfg.Ceil(m).value
  }

  predicate LockForbidden(k: K, r: nat, call: Call)
    requires Shape(k) && r < |k.t.tstat|
  {
    call.LocMtx? && AboveCeiling(k, r, call.m)
  }

  predicate LocksAgain(k: K, r: nat, call: Call)
    requires Shape(k) && ArgsOk(k.cfg, call)
  {
    call.LocMtx? && k.q.loc[call.m] == Some(r)
  }

  /** Who waits, and who is sent back with which answer: each answer exactly when. */
  lemma WhoWaits(k: K, call: Call)
    requires Inv(k) && Enabled(k, Task(call)) && MayWait(call)
    ensures Shape(k) && Caller(k, Task(call)) < |k.t.tstat|
    ensures var r, ret := Caller(k, Task(call)), Step(k, Task(call)).1;
            var asks := Dsp(k) && (Patient(call) || Polls(call)) && !LockForbidden(k, r, call);
            var waits := asks && !There(k, r, call) && !LocksAgain(k, r, call);
            && (ret == Ret(E_CTX) <==> !Dsp(k))
            && (ret == Ret(E_PAR) <==> Dsp(k) && !Patient(call) && !Polls(call))
            && (ret == Ret(E_ILUSE) <==> Dsp(k) && (Patient(call) || Polls(call)) && LockForbidden(k, r, call))
            && (ret == Ret(E_OK) <==> asks && There(k, r, call))
            && (ret == Ret(E_OBJ) <==> asks && LocksAgain(k, r, call))
            && (ret == Ret(E_TMOUT) <==> waits && Polls(call))
            && (ret == Ret(E_RLWAI) <==> waits && Patient(call) && k.t.flag[r].waifbd)
            && (ret == Blocks <==> waits && Patient(call) && !k.t.flag[r].waifbd)
  {
    hide Core, Inv, Block, Acquire, HeldOk, WqOk, CfgOk, SetFlag;
    Lift(k, Task(call), call);
  }

  /** A mutex is taken: it comes in front of those that the task holds already, and if its
      ceiling raises the task, the task goes ahead of its new equals. */
  ghost predicate Takes(k: K, k1: K, r: nat, m: nat) {
    && r < |k.t.held| && m < |k.q.loc|
    && k1.cfg == k.cfg && k1.e == k.e
    && k1.t == k.t.(held := k.t.held[r := [m] + k.t.held[r]], pri := k1.t.pri)
    && k1.q == k.q.(loc := k.q.loc[m := Some(r)], rq := k1.q.rq, wq := k1.q.wq)
    && MaybeMoves(k, k1, r)
  }

  /** A call that may wait leaves a wait that has begun, with a timer exactly if a time was
      given; or what it asked for; or nothing. */
  ghost predicate WaitOrTake(k: K, k1: K, ret: Ret, r: nat, call: Call)
    requires Shape(k) && r < |k.t.tstat| && MayWait(call) && ArgsOk(k.cfg, call)
  {
    if ret.Blocks? then
      WaitBegins(k, k1, r, Goal(call), Delay(call)) && (Tsk(r) in k1.e.tmr <==> Delay(call).Some?)
    else if ret != Ret(E_OK) then SameTables(k, k1)
    else
      match call
      case SlpTsk(_) =>
        && k1.t == k.t.(flag := k.t.flag[r := k.t.flag[r].(wupque := false)])
        && k1.q == k.q && k1.e == k.e && k1.cfg == k.cfg
      case LocMtx(m, _) => Takes(k, k1, r, m)
      case WaiSem(o, _) =>
        && k.q.cnt[o] > 0 && k1.q == k.q.(cnt := k.q.cnt[o := k.q.cnt[o] - 1])
        && k1.t == k.t && k1.e == k.e && k1.cfg == k.cfg
      case _ => false
  }

  lemma WaitCalls(k: K, call: Call)
    requires Inv(k) && Enabled(k, Task(call)) && MayWait(call)
    ensures Shape(k) && Caller(k, Task(call)) < |k.t.tstat|
    ensures WaitOrTake(k, Step(k, Task(call)).0, Step(k, Task(call)).1, Caller(k, Task(call)), call)
  {
    hide Core, Inv, HeldOk, WqOk, CfgOk, Shape, Enabled, Step, DoCall, LinesUp, Remove;
    Lift(k, Task(call), call);
    WaitOutcome(k, Caller(k, Task(call)), call);
  }

  lemma WaitOutcome(k: K, r: nat, call: Call)
    requires Core(k, -1, {}) && ArgsOk(k.cfg, call) && MayWait(call) && r < |k.t.tstat| && k.t.tstat[r].Runnable?
    ensures Sane(k) && WaitOrTake(k, DoCall(k, r, call).0, DoCall(k, r, call).1, r, call)
  {
    hide Core, HeldOk, WqOk, CfgOk, WaitBegins, MaybeMoves, Acquire, Block, Shape;
    CoreShape(k);
    ShapeLengths(k);
    Unarmed(k, r);
    if call.LocMtx? {
      AcquireEffect(k, r, call.m);
    }
    BlockEffect(k, r, Goal(call), Delay(call));
    BlockTimer(k, r, Goal(call), Delay(call));
  }

  lemma Unarmed(k: K, r: nat)
    requires Core(k, -1, {}) && r < |k.t.tstat| && k.t.tstat[r].Runnable?
    ensures Tsk(r) !in k.e.tmr
  {
    hide LinksOk, OrderOk, OwnOk, PriOk, SemOk, IdleOk, ClockOk, CfgOk;
  }

  lemma BlockTimer(k: K, r: nat, fac: Factor, d: Option<nat>)
    requires Shape(k) && k.cfg.per.Ok() && r < |k.t.tstat| && (fac.WaitObj? ==> fac.o < |k.q.wq|) && Tsk(r) !in k.e.tmr
    ensures Tsk(r) in Block(k, r, fac, d).e.tmr <==> d.Some?
  {
    hide Enqueue, Remove, Period.Ceil;
  }

  // ----- Task states --------------------------------------------------------

  // Nothing changes but what the task control blocks hold.
  predicate OnlyTasks(k: K, k1: K) {
    k1.cfg == k.cfg && k1.q == k.q && k1.e == k.e
  }

  /** Task `t`, ready again, stands behind its equals; nothing else changes but its state. */
  ghost predicate GetsReady(k: K, k1: K, t: nat) {
    && t < |k.t.tstat|
    && k1.cfg == k.cfg && k1.e == k.e
    && k1.t == k.t.(tstat := k.t.tstat[t := Runnable])
    && k1.q == k.q.(rq := k1.q.rq) && LinesUp(k.q.rq, k1.q.rq, k.t.pri, [], [t])
  }

  lemma ActivateEffect(k: K, t: nat)
    requires Core(k, -1, {}) && t < |k.t.tstat|
    ensures GetsReady(k, Activate(k, t), t) && Activate(k, t).c == k.c
  {
    hide LinesUp, InsertLast;
    CoreOrder(k);
    LinesUpLast(k.q.rq, k.t.pri, t);
  }

  /** act_tsk starts a dormant task; an activation of a task that is not dormant is queued,
      but only one. */
  lemma Activated(k: K, op: Op, t: nat)
    requires Inv(k) && Enabled(k, op) && Calls(op, ActTsk(t))
    ensures Shape(k) && t < |k.t.tstat|
    ensures var (k1, ret) := Step(k, op);
            if k.t.tstat[t].Dormant? then ret == Ret(E_OK) && GetsReady(k, k1, t)
            else if !k.t.flag[t].actque then
              ret == Ret(E_OK) && OnlyTasks(k, k1) && k1.t == k.t.(flag := k.t.flag[t := k.t.flag[t].(actque := true)])
            else ret == Ret(E_QOVR) && SameTables(k, k1)
  {
    hide Core, Inv, HeldOk, WqOk, CfgOk, Activate, Step, Enabled, LinesUp;
    Lift(k, op, ActTsk(t));
    ActivateEffect(k, t);
  }

  /** wup_tsk ends the wait of a task that sleeps; the wakeup of one that does not is queued,
      but only one. */
  lemma WokenUp(k: K, op: Op, t: nat)
    requires Inv(k) && Enabled(k, op) && Calls(op, WupTsk(t))
    ensures Shape(k) && t < |k.t.tstat|
    ensures var (k1, ret) := Step(k, op);
            if k.t.tstat[t].Dormant? then ret == Ret(E_OBJ) && SameTables(k, k1)
            else if k.t.tstat[t].Waiting? && k.t.tstat[t].fac.WaitSlp? then
              ret == Ret(E_OK) && Wakes(k, k1, [t], E_OK)
            else if !k.t.flag[t].wupque then
              ret == Ret(E_OK) && OnlyTasks(k, k1) && k1.t == k.t.(flag := k.t.flag[t := k.t.flag[t].(wupque := true)])
            else ret == Ret(E_QOVR) && SameTables(k, k1)
  {
    hide Core, Inv, HeldOk, WqOk, CfgOk, EndWait, Step, Enabled, LinesUp, StatEnd, InfoEnd, Without, TskBlks, Woken;
    Lift(k, op, WupTsk(t));
    CoreOrder(k);
    if k.t.tstat[t].Waiting? {
      EndWaitEffect(k, t, E_OK);
    }
  }

  /** rel_wai ends any wait with E_RLWAI. */
  lemma Released(k: K, op: Op, t: nat)
    requires Inv(k) && Enabled(k, op) && Calls(op, RelWai(t))
    ensures Shape(k) && t < |k.t.tstat|
    ensures var (k1, ret) := Step(k, op);
            if k.t.tstat[t].Waiting? then ret == Ret(E_OK) && Wakes(k, k1, [t], E_RLWAI)
            else ret == Ret(E_OBJ) && SameTables(k, k1)
  {
    hide Core, Inv, HeldOk, WqOk, CfgOk, EndWait, Step, Enabled, LinesUp, StatEnd, InfoEnd, Without, TskBlks, Woken;
    Lift(k, op, RelWai(t));
    CoreOrder(k);
    if k.t.tstat[t].Waiting? {
      EndWaitEffect(k, t, E_RLWAI);
    }
  }

  /** sus_tsk takes a runnable task off the ready list, and marks a wait as suspended. */
  lemma IsSuspended(k: K, t: nat)
    requires Inv(k) && Enabled(k, Task(SusTsk(t)))
    ensures Shape(k) && t < |k.t.tstat|
    ensures var op := Task(SusTsk(t));
            var (k1, ret) := Step(k, op);
            var s := k.t.tstat[t];
            && (ret == Ret(E_CTX) <==> t == Caller(k, op) && !Dsp(k))
            && (ret == Ret(E_OBJ) <==> ret != Ret(E_CTX) && s.Dormant?)
            && (ret == Ret(E_QOVR) <==> ret != Ret(E_CTX) && (s.Suspended? || (s.Waiting? && s.susp)))
            && (ret != Ret(E_OK) ==> ret.Ret? && ret.er in {E_CTX, E_OBJ, E_QOVR} && SameTables(k, k1))
            && (ret == Ret(E_OK) ==>
                  && k1.cfg == k.cfg && k1.e == k.e
                  && k1.t == k.t.(tstat := k.t.tstat[t := if s.Waiting? then Waiting(s.fac, true) else Suspended])
                  && k1.q == k.q.(rq := Remove(k.q.rq, t)))
  {
    hide Core, Inv, HeldOk, WqOk, CfgOk, Step, Enabled, Remove;
    Lift(k, Task(SusTsk(t)), SusTsk(t));
    if !k.t.tstat[t].Runnable? {
      NotReady(k, t);
    }
  }

  lemma NotReady(k: K, t: nat)
    requires Core(k, -1, {}) && t < |k.t.tstat| && !k.t.tstat[t].Runnable?
    ensures Remove(k.q.rq, t) == k.q.rq
  {
    hide PriOk, IdleOk, TmrOk, SemOk, ClockOk, CfgOk, OwnOk, OrderOk;
  }

  /** rsm_tsk undoes a suspension: the task is ready behind its equals, or goes on waiting. */
  lemma Resumed(k: K, t: nat)
    requires Inv(k) && Enabled(k, Task(RsmTsk(t)))
    ensures Shape(k) && t < |k.t.tstat|
    ensures var (k1, ret) := Step(k, Task(RsmTsk(t)));
            var s := k.t.tstat[t];
            if s.Suspended? then ret == Ret(E_OK) && GetsReady(k, k1, t)
            else if s.Waiting? && s.susp then
              ret == Ret(E_OK) && OnlyTasks(k, k1) && k1.t == k.t.(tstat := k.t.tstat[t := Waiting(s.fac, false)])
            else ret == Ret(E_OBJ) && SameTables(k, k1)
  {
    hide Core, Inv, HeldOk, WqOk, CfgOk, Activate, Step, Enabled, LinesUp;
    Lift(k, Task(RsmTsk(t)), RsmTsk(t));
    ActivateEffect(k, t);
  }

  /** dis_wai forbids waits, in the mask state only, and ena_wai allows them again. */
  lemma WaitsForbidden(k: K, op: Op, t: nat, texmask: bool)
    requires Inv(k) && Enabled(k, op) && Calls(op, DisWai(t, texmask))
    ensures Shape(k) && t < |k.t.tstat|
    ensures var (k1, ret) := Step(k, op);
            && (ret == Ret(E_OBJ) <==> k.t.tstat[t].Dormant? || (!k.t.flag[t].waifbd && !texmask))
            && (ret == Ret(E_QOVR) <==> !k.t.tstat[t].Dormant? && k.t.flag[t].waifbd)
            && (ret == Ret(E_OK) <==> !k.t.tstat[t].Dormant? && !k.t.flag[t].waifbd && texmask)
            && OnlyTasks(k, k1)
            && k1.t == if ret == Ret(E_OK) then k.t.(flag := k.t.flag[t := k.t.flag[t].(waifbd := true)]) else k.t
  {
    hide Core, Inv, HeldOk, WqOk, CfgOk, Step, Enabled;
    Lift(k, op, DisWai(t, texmask));
  }

  lemma WaitsAllowed(k: K, op: Op, t: nat)
    requires Inv(k) && Enabled(k, op) && Calls(op, EnaWai(t))
    ensures Shape(k) && t < |k.t.tstat|
    ensures var (k1, ret) := Step(k, op);
            && ret == Ret(if k.t.flag[t].waifbd then E_OK else E_OBJ)
            && OnlyTasks(k, k1)
            && k1.t == if ret == Ret(E_OK) then k.t.(flag := k.t.flag[t := k.t.flag[t].(waifbd := false)]) else k.t
  {
    hide Core, Inv, HeldOk, WqOk, CfgOk, Step, Enabled;
    Lift(k, op, EnaWai(t));
    SleepFlag(k, t);
  }

  // ----- Tasks that end -----------------------------------------------------

  /** ext_tsk ends the calling task and allows dispatching. */
  lemma Exits(k: K)
    requires Inv(k) && Enabled(k, Task(ExtTsk))
    ensures var (k1, ret) := Step(k, Task(ExtTsk));
            ret == Ret(E_OK) && TaskEnds(k, k1, Caller(k, Task(ExtTsk)), [Caller(k, Task(ExtTsk))]) && Dsp(k1)
  {
    hide Core, Inv, Terminate, TaskEnds, HeldOk, WqOk, CfgOk, Shape;
    Lift(k, Task(ExtTsk), ExtTsk);
    var r := Caller(k, Task(ExtTsk));
    var k0 := k.(c := k.c.(disdsp := false, ipmflg := true));
    ExtPost(k, r);
    CoreContext(k, k0.c);
    CoreShape(k0);
    DetachRunning(k0, r);
    DetachCore(k0, r);
    TerminateEffect(Detach(k0, r), r);
    DetachedEnds(k0, Terminate(Detach(k0, r), r), r);
    EndsAlike(k, k0, Terminate(Detach(k0, r), r), Step(k, Task(ExtTsk)).0, r);
  }

  lemma EndsAlike(k: K, k0: K, k1: K, k2: K, t: nat)
    requires TaskEnds(k0, k1, t, [t]) && SameTables(k, k0) && SameTables(k1, k2)
    ensures TaskEnds(k, k2, t, [t])
  {
    hide LinesUp, StatEnd, InfoEnd, Woken, Heirs, Won, Without, TskBlks;
  }

  /** ter_tsk ends another task unless it is dormant. */
  lemma Terminated(k: K, t: nat)
    requires Inv(k) && Enabled(k, Task(TerTsk(t)))
    ensures Shape(k) && t < |k.t.tstat|
    ensures var (k1, ret) := Step(k, Task(TerTsk(t)));
            if t == Caller(k, Task(TerTsk(t))) then ret == Ret(E_ILUSE) && SameTables(k, k1)
            else if k.t.tstat[t].Dormant? then ret == Ret(E_OBJ) && SameTables(k, k1)
            else ret == Ret(E_OK) && TaskEnds(k, k1, t, [t])
  {
    hide Core, Inv, Enabled, Step, Terminate, TaskEnds, HeldOk, WqOk, CfgOk, Detach;
    Lift(k, Task(TerTsk(t)), TerTsk(t));
    if !k.t.tstat[t].Dormant? {
      DetachCore(k, t);
      DetachSame(k, t);
      TerminateEffect(Detach(k, t), t);
      DetachedEnds(k, Terminate(Detach(k, t), t), t);
      if t != Caller(k, Task(TerTsk(t))) {
        EndsAlike(k, k, Terminate(Detach(k, t), t), Step(k, Task(TerTsk(t))).0, t);
      }
    }
  }

  // ----- Base priorities ----------------------------------------------------

  /** The base priority that chg_pri asks for. */
  function NewBase(k: K, t: nat, tskpri: Option<nat>): nat
    requires Shape(k) && t < |k.t.tstat|
  {
    if tskpri.Some? then tskpri.value else k.cfg.ipri[t]
  }

  /** Task `t` holds or awaits a mutex whose ceiling is above the priority `b`. */
  ghost predicate CeilingAbove(k: K, t: nat, b: nat)
    requires Shape(k) && t < |k.t.tstat|
  {
    exists m: nat :: (m in k.t.held[t] || WaitsOn(k, t, m)) && k.cfg.Ceil(m).Some? && b < k.cfg.Ceil(m).value
  }

  /** chg_pri gives a task a new base priority, which is its current priority unless it holds a
      mutex with a ceiling; the task then stands behind its new equals.  No other task's
      priority changes. */
  lemma Rebased(k: K, t: nat, tskpri: Option<nat>)
    requires Inv(k) && Enabled(k, Task(ChgPri(t, tskpri)))
    ensures Shape(k) && t < |k.t.tstat| && Caller(k, Task(ChgPri(t, tskpri))) < |k.t.tstat|
    ensures var op := Task(ChgPri(t, tskpri));
            var (k1, ret) := Step(k, op);
            var b := NewBase(k, t, tskpri);
            && (ret == Ret(E_PAR) <==> b >= TNUM_TPRI)
            && (ret == Ret(E_OBJ) <==> b < TNUM_TPRI && k.t.tstat[t].Dormant?)
            && (ret == Ret(E_ILUSE) <==>
                  b < TNUM_TPRI && !k.t.tstat[t].Dormant? && (b < k.cfg.minpri[Caller(k, op)] || CeilingAbove(k, t, b)))
            && (ret == Ret(E_OK) <==>
                  b < TNUM_TPRI && !k.t.tstat[t].Dormant? && k.cfg.minpri[Caller(k, op)] <= b && !CeilingAbove(k, t, b))
            && (ret != Ret(E_OK) ==> SameTables(k, k1))
            && (ret == Ret(E_OK) ==>
                  && k1.cfg == k.cfg && k1.e == k.e
                  && k1.t == k.t.(bpri := k.t.bpri[t := b], pri := k1.t.pri)
                  && k1.q == k.q.(rq := k1.q.rq, wq := k1.q.wq)
                  && (if HoldsCeiling(k, t) then k1.t.pri == k.t.pri && k1.q == k.q
                      else k1.t.pri == k.t.pri[t := b] && Moves(k, k1, t, false)))
  {
    hide Core, Inv, Enabled, Step, HeldOk, WqOk, CfgOk, ChangePriority, CheckCeil, HasCeil, Moves, LinksOk, OrderOk;
    Lift(k, Task(ChgPri(t, tskpri)), ChgPri(t, tskpri));
    CoreShaped(k, -1, {});
    var b := NewBase(k, t, tskpri);
    CeilingsChecked(k, t, b);
    var k0 := k.(t := k.t.(bpri := k.t.bpri[t := b]));
    if b < TNUM_TPRI {
      ChangePriorityEffect(k0, t, b, false);
      MovesAlike(k, k0, ChangePriority(k0, t, b, false), Step(k, Task(ChgPri(t, tskpri))).0, t);
    }
  }

  lemma CeilingsChecked(k: K, t: nat, b: nat)
    requires Shape(k) && t < |k.t.tstat|
    ensures CheckCeil(k, t, b) <==> !CeilingAbove(k, t, b)
    ensures HasCeil(k.cfg, k.t.held[t]) <==> HoldsCeiling(k, t)
  {
  }

  lemma MovesAlike(k: K, k0: K, k1: K, k2: K, t: nat)
    requires k0.cfg == k.cfg && k0.t.tstat == k.t.tstat && k0.t.pri == k.t.pri && k0.q == k.q
    ensures Moves(k0, k1, t, false) && k2.t.pri == k1.t.pri && k2.q == k1.q ==> Moves(k, k2, t, false)
    ensures Moves(k0, k1, t, false) ==> t < |k.t.pri| == |k1.t.pri| && k1.t.pri == k.t.pri[t := k1.t.pri[t]]
  {
    hide LinesUp, Remove;
  }

  predicate HoldsCeiling(k: K, t: nat)
    requires Shape(k) && t < |k.t.tstat|
  {
    exists m :: m in k.t.held[t] && k.cfg.Ceil(m).Some?
  }

  // ----- Mutexes ------------------------------------------------------------

  /** ploc_mtx takes a free mutex or answers at once. */
  lemma LockedOrNot(k: K, m: nat)
    requires Inv(k) && Enabled(k, Task(PlocMtx(m)))
    ensures Shape(k) && Caller(k, Task(PlocMtx(m))) < |k.t.tstat| && m < |k.q.loc|
    ensures var r := Caller(k, Task(PlocMtx(m)));
            var (k1, ret) := Step(k, Task(PlocMtx(m)));
            if AboveCeiling(k, r, m) then ret == Ret(E_ILUSE) && SameTables(k, k1)
            else if k.q.loc[m] == None then ret == Ret(E_OK) && Takes(k, k1, r, m)
            else ret == Ret(if k.q.loc[m] == Some(r) then E_OBJ else E_TMOUT) && SameTables(k, k1)
  {
    hide Core, Inv, Enabled, Step, HeldOk, WqOk, CfgOk, Acquire, LinesUp, Remove;
    Lift(k, Task(PlocMtx(m)), PlocMtx(m));
    AcquireEffect(k, Caller(k, Task(PlocMtx(m))), m);
  }

  /** A mutex goes from task `r` to its first waiter, or is free.  If `r` loses priority, it
      goes ahead of its new equals; the new owner gets ready behind its own. */
  ghost predicate Passes(k: K, k1: K, r: nat, m: nat)
    requires Shape(k) && r < |k.t.tstat| && m < |k.q.wq|
  {
    var hs := Heirs(k.q.wq, [m]);
    && WaitsEnd(k, k1, hs, E_OK)
    && k1.q.loc == k.q.loc[m := if k.q.wq[m] == [] then None else Some(k.q.wq[m][0])]
    && |k1.t.held| == |k.t.held|
    && (forall v {:trigger k1.t.held[v]} :: 0 <= v < |k.t.held| ==>
          k1.t.held[v] == if v == r then Remove(k.t.held[v], m) else k.t.held[v] + Won(k.q.wq, [m], v))
    && |k1.t.pri| == |k.t.pri|
    && (forall v {:trigger k1.t.pri[v]} :: 0 <= v < |k.t.pri| && v != r && v !in hs ==> k1.t.pri[v] == k.t.pri[v])
    && (if k1.t.pri[r] == k.t.pri[r] then LinesUp(k.q.rq, k1.q.rq, k1.t.pri, [], Woken(k.t.tstat, hs))
        else LinesUp(Remove(k.q.rq, r), k1.q.rq, k1.t.pri, [r], Woken(k.t.tstat, hs)))
  }

  /** unl_mtx passes a mutex on exactly if the caller owns it. */
  lemma Unlocked(k: K, m: nat)
    requires Inv(k) && Enabled(k, Task(UnlMtx(m)))
    ensures Shape(k) && Caller(k, Task(UnlMtx(m))) < |k.t.tstat| && m < |k.q.loc|
    ensures var r := Caller(k, Task(UnlMtx(m)));
            var (k1, ret) := Step(k, Task(UnlMtx(m)));
            if k.q.loc[m] == Some(r) then ret == Ret(E_OK) && Passes(k, k1, r, m)
            else ret == Ret(E_OBJ) && SameTables(k, k1)
  {
    hide Core, Inv, Enabled, Step, HeldOk, WqOk, CfgOk, Shape, GiveUp, HandOver, Passes, Cfg.Ceil;
    var r := Caller(k, Task(UnlMtx(m)));
    Lift(k, Task(UnlMtx(m)), UnlMtx(m));
    ShapeLengths(k);
    if k.q.loc[m] == Some(r) {
      UnlockEffect(k, r, m);
      PassesAlike(k, DoUnlMtx(k, r, m).0, Step(k, Task(UnlMtx(m))).0, r, m);
    }
  }

  lemma PassesAlike(k: K, k1: K, k2: K, r: nat, m: nat)
    requires Shape(k) && r < |k.t.tstat| && m < |k.q.wq|
    requires Passes(k, k1, r, m) && SameTables(k1, k2)
    ensures Passes(k, k2, r, m)
  {
    hide LinesUp, StatEnd, InfoEnd, Woken, Heirs, Won, Without, TskBlks;
  }

  lemma UnlockEffect(k: K, r: nat, m: nat)
    requires Core(k, -1, {}) && r < |k.t.tstat| && k.t.tstat[r].Runnable? && k.cfg.IsMtx(m)
    requires m < |k.q.loc| && k.q.loc[m] == Some(r)
    ensures Sane(k) && Passes(k, DoUnlMtx(k, r, m).0, r, m)
  {
    hide Core, HeldOk, WqOk, CfgOk, Shape, GiveUp, HandOver, HandsOver, Passes, MaybeMoves, Cfg.Ceil;
    CoreShape(k);
    ShapeLengths(k);
    MutexFacts(k, m);
    GiveUpCore(k, {}, r, m);
    GiveUpEffect(k, {}, r, m);
    var k1 := GiveUp(k, r, m);
    assert {} + {m} == {m};
    GiveUpOk(k, r, m);
    HandOverOk(k1, m);
    HandOverEffect(k1, -1, {m}, m);
    HandOverOwners(k1, m);
    GivenUp(k, k1, HandOver(k1, m), r, m);
  }

  /** A task that is ready gives the mutex up, and then it changes hands. */
  lemma GivenUp(k: K, k1: K, k2: K, r: nat, m: nat)
    requires Core(k, -1, {}) && r < |k.t.tstat| && k.t.tstat[r].Runnable? && m < |k.q.wq| && Core(k1, -1, {m})
    requires Shape(k)
    requires k1 == k.(t := k.t.(pri := k1.t.pri, held := k.t.held[r := Remove(k.t.held[r], m)]),
                      q := k.q.(rq := k1.q.rq, wq := k1.q.wq))
    requires MaybeMoves(k, k1, r) && HandsOver(k1, k2, [m])
    requires |k1.q.wq| == |k1.q.loc| && k2.q.loc == k1.q.loc[m := NextOwner(k1, m)]
    ensures Passes(k, k2, r, m)
  {
    hide LinesUp, StatEnd, InfoEnd, Woken, Heirs, Won, Without, TskBlks, Core, Remove, LinksOk, WqOk;
    CoreOrder(k);
    CoreShaped(k1, -1, {m});
    NotWaiting(k, r);
    assert k1.q.wq == k.q.wq;
    OneHeir(k.q.wq, m);
    HeirsWait(k, [m]);
    var hs := Heirs(k.q.wq, [m]);
    assert r !in hs;
    assert k2.t.pri[r] == k1.t.pri[r];
    assert WaitsEnd(k, k2, hs, E_OK);
    if k1.t.pri[r] != k.t.pri[r] {
      NoneReady(k, hs);
      NoneReady(k1, hs);
      var w := Woken(k.t.tstat, hs);
      LinesUpAgree(Remove(k.q.rq, r), k1.q.rq, k1.t.pri, k2.t.pri, [r], []);
      LinesUpThen(Remove(k.q.rq, r), k1.q.rq, k2.q.rq, k2.t.pri, [r], [], [], w);
      assert [] + [r] == [r] && [] + w == w;
    }
  }

  lemma NotWaiting(k: K, r: nat)
    requires r < |k.t.tstat| && k.t.tstat[r].Runnable?
    ensures forall o :: !WaitsOn(k, r, o)
  {
  }

  /** Tasks that wait are not in the ready list. */
  lemma NoneReady(k: K, vs: seq<nat>)
    requires LinksOk(k.t.tstat, k.q.rq, k.q.wq, -1)
    requires forall v :: v in vs ==> v < |k.t.tstat| && k.t.tstat[v].Waiting?
    ensures forall v :: v in vs ==> v !in k.q.rq
  {
  }

  /** Task `t` no longer owns mutex `m`, which is free. */
  ghost predicate GivesUp(k: K, k1: K, t: nat, m: nat) {
    && t < |k.t.held| && m < |k.q.loc|
    && k1.cfg == k.cfg && k1.e == k.e
    && k1.t == k.t.(held := k.t.held[t := Remove(k.t.held[t], m)], pri := k1.t.pri)
    && k1.q == k.q.(loc := k.q.loc[m := None], rq := k1.q.rq, wq := k1.q.wq)
    && MaybeMoves(k, k1, t)
  }

  /** ini_mtx ends the waits of all who wait for the mutex; then its owner gives it up. */
  lemma MutexReset(k: K, m: nat)
    requires Inv(k) && Enabled(k, Task(IniMtx(m)))
    ensures Shape(k) && m < |k.q.loc| && m < |k.q.wq|
    ensures var (k1, ret) := Step(k, Task(IniMtx(m)));
            && ret == Ret(E_OK)
            && (k.q.loc[m] == None ==> k.q.wq[m] == [] && SameTables(k, k1))
            && (k.q.loc[m].Some? ==>
                  exists k0 :: Wakes(k, k0, k.q.wq[m], E_DLT) && GivesUp(k0, k1, k.q.loc[m].value, m))
  {
    hide Core, Inv, Enabled, Step, HeldOk, WqOk, CfgOk, Shape, GiveUp, Drain, Wakes, GivesUp;
    Lift(k, Task(IniMtx(m)), IniMtx(m));
    ShapeLengths(k);
    MutexFacts(k, m);
    NoOwnerNoWaiters(k, m);
    DrainPost(k, m);
    DrainOk(k, m);
    DrainEffect(k, m);
    var k0 := Drain(k, m);
    if k.q.loc[m] == None {
      NothingToDrain(k, m);
    } else {
      GiveUpEffect(k0, {}, k.q.loc[m].value, m);
      ResetEffect(k, k0, m, k.q.loc[m].value, Step(k, Task(IniMtx(m))).0);
    }
  }

  lemma NothingToDrain(k: K, m: nat)
    requires Shape(k) && WqOk(k) && m < |k.q.wq| && k.q.wq[m] == []
    ensures Drain(k, m) == k
  {
  }

  lemma ResetEffect(k: K, k0: K, m: nat, t: nat, k1: K)
    requires Core(k0, -1, {}) && t < |k0.t.tstat| && m < |k0.q.wq| && Shape(k0)
    requires m < |k0.q.loc|
    requires var k2 := GiveUp(k0, t, m); m < |k2.q.loc| && SameTables(k2.(q := k2.q.(loc := k2.q.loc[m := None])), k1)
    ensures GivesUp(k0, k1, t, m)
  {
    hide Core, GiveUp, Remove, LinesUp;
    ShapeLengths(k0);
    GiveUpEffect(k0, {}, t, m);
  }

  lemma NoOwnerNoWaiters(k: K, m: nat)
    requires Core(k, -1, {}) && k.cfg.IsMtx(m)
    ensures m < |k.q.loc| == |k.q.wq| && (k.q.loc[m] == None ==> k.q.wq[m] == [])
  {
    hide PriOk, IdleOk, TmrOk, SemOk, LinksOk, OrderOk, ClockOk, CfgOk;
  }

  // ----- Semaphores and other queues ----------------------------------------

  /** sig_sem serves the first waiter, or counts as long as the maximum allows. */
  lemma Signals(k: K, op: Op, o: nat)
    requires Inv(k) && Enabled(k, op) && Calls(op, SigSem(o))
    ensures Shape(k) && o < |k.q.wq| && k.cfg.IsSem(o)
    ensures var (k1, ret) := Step(k, op);
            if k.q.wq[o] != [] then ret == Ret(E_OK) && Wakes(k, k1, [k.q.wq[o][0]], E_OK)
            else if k.q.cnt[o] < k.cfg.obj[o].max then
              ret == Ret(E_OK) && k1.cfg == k.cfg && k1.t == k.t && k1.e == k.e
              && k1.q == k.q.(cnt := k.q.cnt[o := k.q.cnt[o] + 1])
            else ret == Ret(E_QOVR) && SameTables(k, k1)
  {
    hide Core, Inv, HeldOk, WqOk, CfgOk, PopWake, Step, Enabled, LinesUp, StatEnd, InfoEnd, Without, TskBlks, Woken;
    hide LinksOk, EndWait;
    Lift(k, op, SigSem(o));
    CoreOrder(k);
    if k.q.wq[o] != [] {
      PopIsEndWait(k, -1, o, E_OK);
      EndWaitEffect(k, k.q.wq[o][0], E_OK);
    }
  }

  /** pol_sem takes a unit if there is one. */
  lemma TakesUnit(k: K, o: nat)
    requires Inv(k) && Enabled(k, Task(PolSem(o)))
    ensures Shape(k) && o < |k.q.cnt|
    ensures var (k1, ret) := Step(k, Task(PolSem(o)));
            if k.q.cnt[o] == 0 then ret == Ret(E_TMOUT) && SameTables(k, k1)
            else
              ret == Ret(E_OK) && k1.cfg == k.cfg && k1.t == k.t && k1.e == k.e
              && k1.q == k.q.(cnt := k.q.cnt[o := k.q.cnt[o] - 1])
  {
    hide Core, Inv, HeldOk, WqOk, CfgOk, Step, Enabled;
    Lift(k, Task(PolSem(o)), PolSem(o));
  }

  /** ini_sem ends all waits and gives the semaphore its initial count. */
  lemma SemaphoreReset(k: K, o: nat)
    requires Inv(k) && Enabled(k, Task(IniSem(o)))
    ensures Shape(k) && o < |k.q.wq| && k.cfg.IsSem(o)
    ensures var (k1, ret) := Step(k, Task(IniSem(o)));
            && ret == Ret(E_OK)
            && k1.q.cnt == k.q.cnt[o := k.cfg.obj[o].init]
            && Wakes(k, k1.(q := k1.q.(cnt := k.q.cnt)), k.q.wq[o], E_DLT)
  {
    hide Core, Inv, HeldOk, WqOk, CfgOk, Step, Enabled, Drain, LinesUp, StatEnd, InfoEnd, Without, TskBlks, Woken;
    Lift(k, Task(IniSem(o)), IniSem(o));
    ShapeLengths(k);
    DrainOk(k, o);
    DrainEffect(k, o);
  }

  /** Sending, receiving, rel_mpf and set_flg serve the named tasks as far as they wait there. */
  lemma Serves(k: K, op: Op, o: nat, ts: seq<nat>)
    requires Inv(k) && Enabled(k, op) && Calls(op, WakQue(o, ts))
    ensures var (k1, ret) := Step(k, op);
            ret == Ret(E_OK) && Wakes(k, k1, Named(k.t.tstat, o, ts, {}), E_OK)
  {
    hide Core, Inv, HeldOk, WqOk, CfgOk, Step, Enabled, WakeAll, LinesUp, StatEnd, InfoEnd, Without, TskBlks, Woken, Named;
    Lift(k, op, WakQue(o, ts));
    WakeAllEffect(k, o, ts);
  }

  /** Initialization of another object ends the waits in its queue, or its two queues. */
  lemma QueuesReset(k: K, o: nat, o2: nat)
    requires Inv(k) && Enabled(k, Task(IniQue(o, o2)))
    ensures o < |k.q.wq| && o2 < |k.q.wq|
    ensures var (k1, ret) := Step(k, Task(IniQue(o, o2)));
            ret == Ret(E_OK) && Wakes(k, k1, k.q.wq[o] + (if o2 == o then [] else k.q.wq[o2]), E_DLT)
  {
    hide Core, Inv, HeldOk, WqOk, CfgOk, Step, Enabled, Drain, Shape, Wakes;
    Lift(k, Task(IniQue(o, o2)), IniQue(o, o2));
    ShapeLengths(k);
    DrainPost(k, o);
    DrainOk(k, o);
    DrainEffect(k, o);
    var k0 := Drain(k, o);
    DrainPost(k0, o2);
    DrainOk(k0, o2);
    DrainEffect(k0, o2);
    if o2 != o {
      TwoQueues(k, o, o2);
    }
    WakesThen(k, k0, Drain(k0, o2), k.q.wq[o], if o2 == o then [] else k.q.wq[o2], E_DLT);
    WakesAlike(k, Drain(k0, o2), Step(k, Task(IniQue(o, o2))).0, k.q.wq[o] + (if o2 == o then [] else k.q.wq[o2]), E_DLT);
  }

  lemma TwoQueues(k: K, o: nat, o2: nat)
    requires WqOk(k) && o < |k.q.wq| && o2 < |k.q.wq| && o != o2
    ensures forall v :: v in k.q.wq[o2] ==> v !in k.q.wq[o]
  {
    forall v | v in k.q.wq[o2]
      ensures v !in k.q.wq[o]
    {
      assert WaitsOn(k, v, o2);
    }
  }

  lemma WakesAlike(k: K, k1: K, k2: K, vs: seq<nat>, er: Er)
    requires Wakes(k, k1, vs, er) && SameTables(k1, k2)
    ensures Wakes(k, k2, vs, er)
  {
    hide LinesUp, StatEnd, InfoEnd, Without, TskBlks, Woken;
  }

  // ----- Rotation -----------------------------------------------------------

  lemma {:induction false} FirstOfLevel(q: seq<nat>, pri: seq<nat>, p: nat)
    ensures FirstOf(q, pri, p) == if Level(q, pri, p) == [] then None else Some(Level(q, pri, p)[0])
  {
    if q != [] {
      FirstOfLevel(q[1..], pri, p);
    }
  }

  /** rot_rdq gives the next task of a priority its turn, and touches no other priority. */
  lemma Rotated(k: K, op: Op, tskpri: Option<nat>)
    requires Inv(k) && Enabled(k, op) && Calls(op, RotRdq(tskpri))
    ensures Shape(k) && (tskpri == None ==> Caller(k, op) < |k.t.tstat|)
    ensures var (k1, ret) := Step(k, op);
            var p := if tskpri.Some? then tskpri.value else k.t.bpri[Caller(k, op)];
            if p >= TNUM_TPRI then ret == Ret(E_PAR) && SameTables(k, k1)
            else
              && ret == Ret(E_OK) && k1.cfg == k.cfg && k1.t == k.t && k1.e == k.e && k1.q == k.q.(rq := k1.q.rq)
              && var level := Level(k.q.rq, k.t.pri, p);
                 Level(k1.q.rq, k.t.pri, p) == (if level == [] then [] else level[1..] + [level[0]])
                 && forall i: nat :: i != p ==> Level(k1.q.rq, k.t.pri, i) == Level(k.q.rq, k.t.pri, i)
  {
    hide Core, Inv, HeldOk, WqOk, CfgOk, Step, Enabled, Rotate, Level;
    Lift(k, op, RotRdq(tskpri));
    var p := if tskpri.Some? then tskpri.value else k.t.bpri[Caller(k, op)];
    RotatedLevel(k, p, p);
    forall i: nat
      ensures var level := Level(k.q.rq, k.t.pri, i);
              Level(Rotate(k, p).q.rq, k.t.pri, i) == if i == p && level != [] then level[1..] + [level[0]] else level
    {
      RotatedLevel(k, p, i);
    }
  }

  lemma RotatedLevel(k: K, p: nat, i: nat)
    requires Core(k, -1, {})
    ensures Rotate(k, p) == k.(q := k.q.(rq := Rotate(k, p).q.rq))
    ensures var level := Level(k.q.rq, k.t.pri, i);
            Level(Rotate(k, p).q.rq, k.t.pri, i) == if i == p && level != [] then level[1..] + [level[0]] else level
  {
    hide Core, Level, Remove, InsertLast, FirstOf, Sorted;
    CoreOrder(k);
    var q, pri := k.q.rq, k.t.pri;
    FirstOfLevel(q, pri, p);
    if FirstOf(q, pri, p).Some? {
      var t := FirstOf(q, pri, p).value;
      RemoveSorted(q, pri, t);
      LinesUpLast(Remove(q, t), pri, t);
      LevelRemove(q, pri, t, i);
      LevelOne(t, pri, i);
      if i == p {
        FirstOut(Level(q, pri, p));
      }
    }
  }

  lemma FirstOut(q: seq<nat>)
    requires q != []
    ensures Remove(q, q[0]) == q[1..]
  {
  }

  // ----- Handlers and time events -------------------------------------------

  /** sta_cyc registers the handler for the base time and its phase, and stp_cyc cancels it. */
  lemma CyclicStarted(k: K, i: nat)
    requires Inv(k) && Enabled(k, Task(StaCyc(i)))
    ensures Shape(k) && i < |k.cfg.cyc| && k.cfg.per.Ok()
    ensures var (k1, ret) := Step(k, Task(StaCyc(i)));
            var t := Base(k) + k.cfg.cyc[i].cycphs;
            && ret == Ret(E_OK) && k1.cfg == k.cfg && k1.t == k.t && k1.q == k.q
            && k1.e == k.e.(cycsta := k.e.cycsta[i := true], evttim := k.e.evttim[i := t], tmr := k.e.tmr[Cyc(i) := t])
  {
    hide Core, Inv, HeldOk, WqOk, CeilOk, Step, Enabled, Period.Ceil;
    Lift(k, Task(StaCyc(i)), StaCyc(i));
  }

  lemma CyclicStopped(k: K, i: nat)
    requires Inv(k) && Enabled(k, Task(StpCyc(i)))
    ensures Shape(k) && i < |k.cfg.cyc|
    ensures var (k1, ret) := Step(k, Task(StpCyc(i)));
            && ret == Ret(E_OK) && k1.cfg == k.cfg && k1.t == k.t && k1.q == k.q
            && k1.e == k.e.(cycsta := k.e.cycsta[i := false], tmr := k.e.tmr - {Cyc(i)})
  {
    hide Core, Inv, HeldOk, WqOk, CfgOk, Step, Enabled;
    Lift(k, Task(StpCyc(i)), StpCyc(i));
    StoppedUnarmed(k);
    if !k.e.cycsta[i] {
      assert k.e.cycsta[i := false] == k.e.cycsta && k.e.tmr - {Cyc(i)} == k.e.tmr;
    }
  }

  lemma StoppedUnarmed(k: K)
    requires Core(k, -1, {})
    ensures forall i: nat :: i < |k.e.cycsta| && !k.e.cycsta[i] ==> Cyc(i) !in k.e.tmr
    ensures forall i: nat :: i < |k.e.almsta| && !k.e.almsta[i] ==> Alm(i) !in k.e.tmr
  {
    hide LinksOk, OrderOk, OwnOk, PriOk, SemOk, IdleOk, ClockOk, CfgOk;
  }

  /** sta_alm registers the handler for the base time and the given time, and stp_alm cancels it. */
  lemma AlarmStarted(k: K, op: Op, i: nat, d: nat)
    requires Inv(k) && Enabled(k, op) && Calls(op, StaAlm(i, d))
    ensures Shape(k) && i < |k.e.almsta| && k.cfg.per.Ok()
    ensures var (k1, ret) := Step(k, op);
            if d > TMAX_RELTIM then ret == Ret(E_PAR) && SameTables(k, k1)
            else
              && ret == Ret(E_OK) && k1.cfg == k.cfg && k1.t == k.t && k1.q == k.q
              && k1.e == k.e.(almsta := k.e.almsta[i := true], tmr := k.e.tmr[Alm(i) := Base(k) + d])
  {
    hide Core, Inv, HeldOk, WqOk, CeilOk, Step, Enabled, Period.Ceil;
    Lift(k, op, StaAlm(i, d));
  }

  lemma AlarmStopped(k: K, op: Op, i: nat)
    requires Inv(k) && Enabled(k, op) && Calls(op, StpAlm(i))
    ensures Shape(k) && i < |k.e.almsta|
    ensures var (k1, ret) := Step(k, op);
            && ret == Ret(E_OK) && k1.cfg == k.cfg && k1.t == k.t && k1.q == k.q
            && k1.e == k.e.(almsta := k.e.almsta[i := false], tmr := k.e.tmr - {Alm(i)})
  {
    hide Core, Inv, HeldOk, WqOk, CfgOk, Step, Enabled;
    Lift(k, op, StpAlm(i));
    StoppedUnarmed(k);
    if !k.e.almsta[i] {
      assert k.e.almsta[i := false] == k.e.almsta && k.e.tmr - {Alm(i)} == k.e.tmr;
    }
  }

  /** When its time comes, a wait ends with E_TMOUT, or with E_OK if it was a delay; a cyclic
      handler is registered again, one period later; an alarm handler stops. */
  lemma Happens(k: K, b: Blk)
    requires Inv(k) && Enabled(k, Fire(b))
    ensures Shape(k) && FireOk(k, b)
    ensures var k1 := Step(k, Fire(b)).0;
            match b
            case Tsk(t) => Wakes(k, k1, [t], if k.t.tstat[t].fac.WaitDly? then E_OK else E_TMOUT)
            case Cyc(i) =>
              var t := k.e.tmr[b] + k.cfg.cyc[i].cyctim;
              && k1.cfg == k.cfg && k1.t == k.t && k1.q == k.q
              && k1.e == k.e.(evttim := k.e.evttim[i := t], tmr := k.e.tmr[b := t])
            case Alm(i) =>
              && k1.cfg == k.cfg && k1.t == k.t && k1.q == k.q
              && k1.e == k.e.(almsta := k.e.almsta[i := false], tmr := k.e.tmr - {b})
  {
    hide Core, Inv, HeldOk, WqOk, CfgOk, Period.Ceil, Period.Floor, EndWait, StatEnd, InfoEnd, Without, TskBlks, Woken;
    hide LinesUp;
    InvCore(k);
    CoreOrder(k);
    TmrHandlers(k);
    match b
    case Tsk(t) => EndWaitEffect(k, t, if k.t.tstat[t].fac.WaitDly? then E_OK else E_TMOUT);
    case Cyc(i) =>
    case Alm(i) =>
  }

  /** The clock moves when a tick begins; no other part of interrupt handling and no call that
      is not named here touches the tables. */
  lemma Elsewhere(k: K, op: Op)
    requires Inv(k) && Enabled(k, op)
    ensures var (k1, ret) := Step(k, op);
            match op
            case EnterInt | ExitInt => SameTables(k, k1)
            case TickBegin => k1.cfg == k.cfg && k1.t == k.t && k1.q == k.q && k1.e == k.e.(n := k.e.n + 1, ticking := true)
            case TickEnd => k1.cfg == k.cfg && k1.t == k.t && k1.q == k.q && k1.e == k.e.(ticking := false)
            case Task(call) => call.DisDsp? || call.EnaDsp? || call.ChgIpm? ==> ret == Ret(E_OK) && SameTables(k, k1)
            case _ => true
  {
    hide Core, Inv, HeldOk, WqOk, CfgOk, Shape;
    if op.Task? {
      Lift(k, op, op.call);
    }
  }

  // ----- What runs ----------------------------------------------------------

  /** The dispatching state changes in the calls that are for it and in ext_tsk only; a task is
      dispatched at the end of a call, or at the end of interrupt handling if that was asked
      for, and it is asked for when the highest task has changed. */
  lemma Dispatches(k: K, op: Op)
    requires Inv(k) && Enabled(k, op)
    ensures var k1 := Step(k, op).0;
            && k1.c.disdsp == (if op == Task(DisDsp) then true
                               else if op == Task(EnaDsp) || op == Task(ExtTsk) then false else k.c.disdsp)
            && k1.c.ipmflg == (if op.Task? && op.call.ChgIpm? then op.call.enaall
                               else op == Task(ExtTsk) || k.c.ipmflg)
            && k1.c.inint == (if op == EnterInt then true else if op == ExitInt then false else k.c.inint)
            && k1.c.reqflg == (if op == ExitInt then false
                               else k.c.reqflg || ((op.Intr? || op.Fire?) && Dsp(k) && Sched(k1) != Sched(k)))
            && k1.c.run == (if Dsp(k1) && (op.Task? || (op == ExitInt && k.c.reqflg)) then Sched(k1) else k.c.run)
  {
    hide Core, Inv, HeldOk, WqOk, CfgOk, Shape, DoCall, EndWait, ArgsOk;
    InvCore(k);
    match op
    case Task(call) =>
      Lift(k, op, call);
      CallContext(k, k.c.run.value, call);
    case Intr(call) => IntrCallPost(k, call);
    case Fire(b) =>
      CoreShaped(k, -1, {});
      ShapeLengths(k);
      if b.Tsk? {
        EndWaitFields(k, b.id, if k.t.tstat[b.id].fac.WaitDly? then E_OK else E_TMOUT);
      }
    case _ =>
  }

  lemma CallContext(k: K, r: nat, call: Call)
    requires Core(k, -1, {}) && ArgsOk(k.cfg, call) && r < |k.t.tstat| && k.t.tstat[r].Runnable?
    ensures Sane(k)
    ensures DoCall(k, r, call).0.c ==
              match call
              case DisDsp => k.c.(disdsp := true)
              case EnaDsp => k.c.(disdsp := false)
              case ChgIpm(ena) => k.c.(ipmflg := ena)
              case ExtTsk => k.c.(disdsp := false, ipmflg := true)
              case _ => k.c
  {
    hide Core, HeldOk, WqOk, CeilOk, Period.Ok, DoCall;
    CoreShape(k);
    if FromInterrupt(call) {
      IntrCallPost(k, call);
      CallerIrrelevant(k, r, call);
    } else if OnMutex(call) || OnSem(call) || OnQue(call) {
      ObjectContext(k, r, call);
    } else {
      OtherContext(k, r, call);
    }
  }

  lemma CallerIrrelevant(k: K, r: nat, call: Call)
    requires Sane(k) && ArgsOk(k.cfg, call) && FromInterrupt(call)
    ensures DoCall(k, r, call) == DoCall(k, 0, call)
  {
    hide HeldOk, WqOk, CeilOk, Period.Ok, Period.Ceil, Shape, Rotate, EndWait, PopWake, WakeAll, Activate;
  }

  lemma ObjectContext(k: K, r: nat, call: Call)
    requires Core(k, -1, {}) && ArgsOk(k.cfg, call) && r < |k.t.tstat| && k.t.tstat[r].Runnable?
    requires !FromInterrupt(call) && (OnMutex(call) || OnSem(call) || OnQue(call))
    ensures Sane(k) && DoCall(k, r, call).0.c == k.c
  {
    hide Core, Post, HeldOk, WqOk, CfgOk, Shape, DoLocMtx, DoPlocMtx, DoUnlMtx, DoIniMtx, DoWaiSem, DoPolSem, DoIniSem;
    hide DoWaiQue, DoIniQue;
    CoreShape(k);
    match call
    case LocMtx(m, tmo) => LocPost(k, r, m, tmo);
    case PlocMtx(m) => LocPost(k, r, m, 0);
    case UnlMtx(m) => UnlPost(k, r, m);
    case IniMtx(m) => IniMtxPost(k, m);
    case WaiSem(o, tmo) => SemPost(k, r, o, tmo);
    case PolSem(o) => SemPost(k, r, o, 0);
    case IniSem(o) => SigPost(k, o);
    case WaiQue(o, tmo) => QuePost(k, r, o, tmo);
    case IniQue(o, o2) => IniQuePost(k, o, o2);
  }

  lemma OtherContext(k: K, r: nat, call: Call)
    requires Core(k, -1, {}) && ArgsOk(k.cfg, call) && r < |k.t.tstat| && k.t.tstat[r].Runnable?
    requires !FromInterrupt(call) && !OnMutex(call) && !OnSem(call) && !OnQue(call)
    ensures Sane(k)
    ensures DoCall(k, r, call).0.c ==
              match call
              case DisDsp => k.c.(disdsp := true)
              case EnaDsp => k.c.(disdsp := false)
              case ChgIpm(ena) => k.c.(ipmflg := ena)
              case ExtTsk => k.c.(disdsp := false, ipmflg := true)
              case _ => k.c
  {
    hide Core, Post, HeldOk, WqOk, CeilOk, Period.Ok, Period.Ceil, DoExtTsk, DoTerTsk, DoChgPri, Block, Activate, Rotate;
    CoreShape(k);
    match call
    case ExtTsk => ExitContext(k, r);
    case TerTsk(t) => TerPost(k, r, t);
    case ChgPri(t, p) => ChgPriPost(k, r, t, p);
    case SlpTsk(tmo) => SlpPost(k, r, tmo);
    case DlyTsk(d) => DlyPost(k, r, d);
    case SusTsk(t) => SusPost(k, r, t);
    case RsmTsk(t) => SusPost(k, r, t);
    case RotRdq(_) => RotPost(k, k.t.bpri[r]);
    case _ =>
  }

  lemma ExitContext(k: K, r: nat)
    requires Core(k, -1, {}) && r < |k.t.tstat| && k.t.tstat[r].Runnable?
    ensures Sane(k) && DoExtTsk(k, r).0.c == k.c.(disdsp := false, ipmflg := true)
  {
    hide Core, Terminate, TaskEnds, HeldOk, WqOk, CfgOk, Shape;
    CoreShape(k);
    var k0 := k.(c := k.c.(disdsp := false, ipmflg := true));
    CoreContext(k, k0.c);
    CoreShape(k0);
    DetachRunning(k0, r);
    DetachCore(k0, r);
    TerminateEffect(Detach(k0, r), r);
  }

  // ----- Start-up -----------------------------------------------------------

  /** The tasks `act` get ready, in this order. */
  lemma {:induction false} ActivatedAll(k: K, act: seq<nat>)
    requires Core(k, -1, {}) && NoDup(act)
    requires forall t :: t in act ==> t < |k.t.tstat| && k.t.tstat[t].Dormant?
    ensures var k1 := ActivateAll(k, act);
            && k1 == k.(t := k.t.(tstat := k1.t.tstat), q := k.q.(rq := k1.q.rq))
            && |k1.t.tstat| == |k.t.tstat|
            && (forall t :: 0 <= t < |k.t.tstat| ==> k1.t.tstat[t] == if t in act then Runnable else k.t.tstat[t])
            && LinesUp(k.q.rq, k1.q.rq, k.t.pri, [], act)
    decreases |act|
  {
    hide Core, LinesUp, Activate;
    if act == [] {
      LinesUpSame(k.q.rq, k.t.pri);
    } else {
      assert act[0] in act && act == [act[0]] + act[1..];
      ActivateEffect(k, act[0]);
      ActivateCore(k, -1, {}, act[0]);
      NotAgain(act);
      var k1 := Activate(k, act[0]);
      ActivatedAll(k1, act[1..]);
      LinesUpThen(k.q.rq, k1.q.rq, ActivateAll(k, act).q.rq, k.t.pri, [], [act[0]], [], act[1..]);
      var none: seq<nat> := [];
      assert none + none == none;
    }
  }

  lemma NotAgain(act: seq<nat>)
    requires NoDup(act) && act != []
    ensures forall t :: t in act[1..] ==> t in act && t != act[0]
    ensures forall t :: t in act && t != act[0] ==> t in act[1..]
    ensures NoDup(act[1..])
  {
    forall t | t in act[1..]
      ensures t in act && t != act[0]
    {
      var j :| 0 <= j < |act[1..]| && act[1..][j] == t;
      assert act[j + 1] == t;
    }
  }

  /** The state after the first of the handlers has been started. */
  function StartOne(k: K, i: nat): K
    requires |k.e.cycsta| == |k.e.evttim| == |k.cfg.cyc| && i < |k.cfg.cyc|
  {
    var t := k.cfg.cyc[i].cycphs;
    k.(e := k.e.(cycsta := k.e.cycsta[i := true], evttim := k.e.evttim[i := t], tmr := k.e.tmr[Cyc(i) := t]))
  }

  /** The handlers `sta` are registered for their phases, and nothing else changes. */
  ghost predicate Starts(k: K, k1: K, sta: seq<nat>) {
    && k1 == k.(e := k.e.(cycsta := k1.e.cycsta, evttim := k1.e.evttim, tmr := k1.e.tmr))
    && |k1.e.cycsta| == |k1.e.evttim| == |k.e.cycsta|
    && (forall i :: 0 <= i < |k.e.cycsta| ==> k1.e.cycsta[i] == (i in sta || k.e.cycsta[i]))
    && (forall b :: b in k1.e.tmr <==> b in k.e.tmr || (b.Cyc? && b.id in sta))
    && (forall i :: i in sta && i < |k.cfg.cyc| ==> k1.e.tmr[Cyc(i)] == k.cfg.cyc[i].cycphs)
    && (forall b :: b in k.e.tmr && !(b.Cyc? && b.id in sta) ==> k1.e.tmr[b] == k.e.tmr[b])
  }

  lemma {:induction false} StartedAll(k: K, sta: seq<nat>)
    requires |k.e.cycsta| == |k.e.evttim| == |k.cfg.cyc| && forall i :: i in sta ==> i < |k.cfg.cyc|
    ensures Starts(k, StartAll(k, sta), sta)
    decreases |sta|
  {
    hide Starts;
    if sta == [] {
      StartsNone(k);
    } else {
      assert sta[0] in sta && forall i :: i in sta[1..] ==> i in sta;
      StartedAll(StartOne(k, sta[0]), sta[1..]);
      StartsFirst(k, StartAll(k, sta), sta);
    }
  }

  lemma StartsNone(k: K)
    requires |k.e.cycsta| == |k.e.evttim|
    ensures Starts(k, k, [])
  {
  }

  lemma StartsFirst(k: K, k1: K, sta: seq<nat>)
    requires |k.e.cycsta| == |k.e.evttim| == |k.cfg.cyc| && sta != [] && sta[0] < |k.cfg.cyc|
    requires Starts(StartOne(k, sta[0]), k1, sta[1..])
    ensures Starts(k, k1, sta)
  {
    assert forall i :: i in sta <==> i == sta[0] || i in sta[1..];
  }

  /** At start-up the tasks with TA_ACT are ready in the order in which they are activated, the
      cyclic handlers with TA_STA are due at their phases, and all else is as configured. */
  lemma StartsUp(c: Cfg, act: seq<nat>, sta: seq<nat>)
    requires CfgOk(c) && BootOk(c, act, sta)
    ensures var k := Boot(c, act, sta);
            && |k.t.tstat| == |k.t.held| == |k.t.flag| == |c.ipri|
            && |k.q.wq| == |k.q.loc| == |k.q.cnt| == |c.obj| && |k.e.cycsta| == |c.cyc| && |k.e.almsta| == c.nalm
            && (forall t :: 0 <= t < |c.ipri| ==> k.t.tstat[t] == if t in act then Runnable else Dormant)
            && k.t.bpri == c.ipri && k.t.pri == c.ipri
            && (forall t :: 0 <= t < |c.ipri| ==> k.t.held[t] == [] && k.t.flag[t] == Flags(false, false, false))
            && LinesUp([], k.q.rq, c.ipri, [], act)
            && (forall o :: 0 <= o < |c.obj| ==>
                  && k.q.wq[o] == [] && k.q.loc[o] == None
                  && (c.obj[o].SemAttr? ==> k.q.cnt[o] == c.obj[o].init))
            && (forall b :: b in k.e.tmr <==> b.Cyc? && b.id in sta)
            && (forall i :: i in sta ==> k.e.tmr[Cyc(i)] == c.cyc[i].cycphs)
            && (forall i :: 0 <= i < |c.cyc| ==> k.e.cycsta[i] == (i in sta))
            && (forall i :: 0 <= i < c.nalm ==> !k.e.almsta[i])
            && k.e.n == 0 && !k.e.ticking
            && k.c == Context(Sched(k), false, true, false, false)
  {
    hide Core, LinesUp, CfgOk;
    AsleepCore(c);
    StartAllCore(Asleep(c), sta);
    StartedAll(Asleep(c), sta);
    ActivatedAll(StartAll(Asleep(c), sta), act);
  }
}
