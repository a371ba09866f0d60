/** Why the ceiling protocol needs its rules: for each of them a run from start-up that breaks
    it once, keeps all the others, and ends with a task that has to wait for a mutex. */
module Needed {
  import opened Basics
  import opened OrderedList
  import opened TimeEvent
  import opened KernelSpec
  import opened KernelInv
  import opened KernelCalls
  import opened Runs
  import opened Ticks
  import opened Ceiling

  /** The run takes the steps `ops`, all of them allowed but number `bad`, and then the running
      task has to wait when it locks mutex `m`. */
  ghost predicate Path(k: K, ops: seq<Op>, bad: int, m: nat)
    decreases |ops|
  {
    if ops == [] then Enabled(k, Task(LocMtx(m, TMO_FEVR))) && Step(k, Task(LocMtx(m, TMO_FEVR))).1 == Blocks
    else
      && Enabled(k, ops[0]) && (bad != 0 ==> Allowed(k, ops[0])) && (bad == 0 ==> !Allowed(k, ops[0]))
      && Path(Step(k, ops[0]).0, ops[1..], bad - 1, m)
  }

  /** From the start-up of configuration `c`, in which all mutexes have ceilings. */
  ghost predicate Refutes(c: Cfg, act: seq<nat>, ops: seq<Op>, bad: nat, m: nat) {
    && CfgOk(c) && BootOk(c, act, []) && AllCeiling(c) && c.IsMtx(m) && bad < |ops|
    && Path(Boot(c, act, []), ops, bad, m)
  }

  lemma Extend(k: K, op: Op, rest: seq<Op>, bad: int, m: nat)
    requires Enabled(k, op) && (bad != 0 ==> Allowed(k, op)) && (bad == 0 ==> !Allowed(k, op))
    requires Path(Step(k, op).0, rest, bad - 1, m)
    ensures Path(k, [op] + rest, bad, m)
  {
    hide Enabled, Step, Allowed;
    assert ([op] + rest)[1..] == rest;
  }

  /** Such a path is a run that leads to a state in which the next lock operation waits. */
  lemma {:induction false} PathIsRun(k: K, ops: seq<Op>, bad: int, m: nat)
    requires Path(k, ops, bad, m)
    ensures IsRun(k, ops)
    ensures var k1 := After(k, ops);
            Enabled(k1, Task(LocMtx(m, TMO_FEVR))) && Step(k1, Task(LocMtx(m, TMO_FEVR))).1 == Blocks
    decreases |ops|
  {
    hide Enabled, Step, Allowed;
    if ops != [] {
      PathIsRun(Step(k, ops[0]).0, ops[1..], bad - 1, m);
    }
  }

  // ----- Scenes -------------------------------------------------------------

  // What matters of a state in which task `run` makes a call.
  datatype View = View(cfg: Cfg, tstat: seq<TStat>, bpri: seq<nat>, pri: seq<nat>, held: seq<seq<nat>>, rq: seq<nat>,
                       loc: seq<Option<nat>>, cnt: seq<nat>, run: nat, disdsp: bool)

  ghost predicate Scene(k: K, v: View) {
    && Inv(k) && k.cfg == v.cfg && k.q.cnt == v.cnt
    && k.t.tstat == v.tstat && k.t.bpri == v.bpri && k.t.pri == v.pri && k.t.held == v.held
    && k.q.rq == v.rq && k.q.loc == v.loc
    && k.c == Context(Some(v.run), false, true, v.disdsp, false)
    && v.run < |v.tstat| && Plain(k.t.flag)
  }

  predicate Plain(flag: seq<Flags>) {
    forall t :: 0 <= t < |flag| ==> flag[t] == Flags(false, false, false)
  }

  lemma SceneFacts(k: K, v: View)
    requires Scene(k, v)
    ensures Core(k, -1, {}) && Sane(k) && Shape(k) && k.cfg.per.Ok()
    ensures |v.tstat| == |v.bpri| == |v.pri| == |v.held| == |k.t.flag| == |k.cfg.ipri| == |k.cfg.minpri|
    ensures |v.loc| == |k.cfg.obj| == |k.q.wq| == |k.q.cnt| && v.tstat[v.run].Runnable?
    ensures !v.disdsp ==> v.rq != [] && v.rq[0] == v.run
  {
    hide Core, Inv, Plain;
    InvCore(k);
    CoreShape(k);
    InvSane(k);
    RunnerRuns(k, v.run);
    if !v.disdsp {
      RunsFirst(k);
    }
  }

  lemma RunsFirst(k: K)
    requires Inv(k) && !k.c.inint && k.c.run.Some? && Dsp(k)
    ensures Sched(k) == k.c.run
  {
    hide LinksOk, OrderOk, OwnOk, PriOk, TmrOk, SemOk, IdleOk, ClockOk, CfgOk;
  }

  /** A step that leaves the flags alone leads from one scene to the next. */
  lemma NextScene(k: K, op: Op, v: View)
    requires Inv(k) && Enabled(k, op) && Plain(k.t.flag)
    requires var k1 := Step(k, op).0;
             && k1.cfg == v.cfg && k1.q.cnt == v.cnt
             && k1.t.tstat == v.tstat && k1.t.bpri == v.bpri && k1.t.pri == v.pri && k1.t.held == v.held
             && k1.q.rq == v.rq && k1.q.loc == v.loc && k1.t.flag == k.t.flag
             && k1.c == Context(Some(v.run), false, true, v.disdsp, false) && v.run < |v.tstat|
    ensures Scene(Step(k, op).0, v)
  {
    hide Inv, Enabled, Step;
    StepInv(k, op);
  }

  lemma LockBlocks(k: K, v: View, m: nat)
    requires Scene(k, v) && !v.disdsp && v.cfg.IsMtx(m) && m < |v.loc| && v.loc[m].Some? && v.loc[m] != Some(v.run)
    requires v.run < |v.bpri| && (v.cfg.Ceil(m).Some? ==> v.cfg.Ceil(m).value <= v.bpri[v.run])
    ensures Enabled(k, Task(LocMtx(m, TMO_FEVR))) && Step(k, Task(LocMtx(m, TMO_FEVR))).1 == Blocks
  {
    hide Inv, Core, Sane, Block, Shape;
    SceneFacts(k, v);
  }

  function Locked(v: View, m: nat): View
    requires m < |v.loc| && v.run < |v.held|
  {
    v.(loc := v.loc[m := Some(v.run)], held := v.held[v.run := [m] + v.held[v.run]])
  }

  /** Locking a mutex whose ceiling does not raise the caller. */
  lemma Locks(k: K, v: View, m: nat)
    requires Scene(k, v) && !v.disdsp && m < |v.loc| && v.loc[m] == None && v.run < |v.pri| == |v.bpri| == |v.held|
    requires v.cfg.Ceil(m).Some? && v.pri[v.run] <= v.cfg.Ceil(m).value <= v.bpri[v.run]
    ensures Enabled(k, Task(LocMtx(m, TMO_FEVR))) && Scene(Step(k, Task(LocMtx(m, TMO_FEVR))).0, Locked(v, m))
  {
    hide Inv, Core, Sane, Block, Shape, Scene, Plain;
    SceneFacts(k, v);
    SceneFields(k, v);
    NextScene(k, Task(LocMtx(m, TMO_FEVR)), Locked(v, m));
  }

  /** The same while dispatching is disabled. */
  lemma TriesLock(k: K, v: View, m: nat)
    requires Scene(k, v) && m < |v.loc| && v.loc[m] == None && v.run < |v.pri| == |v.bpri| == |v.held|
    requires v.cfg.Ceil(m).Some? && v.pri[v.run] <= v.cfg.Ceil(m).value <= v.bpri[v.run]
    ensures Enabled(k, Task(PlocMtx(m))) && Scene(Step(k, Task(PlocMtx(m))).0, Locked(v, m))
  {
    hide Inv, Core, Sane, Block, Shape, Scene, Plain;
    SceneFacts(k, v);
    SceneFields(k, v);
    NextScene(k, Task(PlocMtx(m)), Locked(v, m));
  }

  lemma SceneFields(k: K, v: View)
    requires Scene(k, v)
    ensures Inv(k) && Plain(k.t.flag) && k.cfg == v.cfg && k.q.cnt == v.cnt
    ensures k.t.tstat == v.tstat && k.t.bpri == v.bpri && k.t.pri == v.pri && k.t.held == v.held
    ensures k.q.rq == v.rq && k.q.loc == v.loc && k.c == Context(Some(v.run), false, true, v.disdsp, false)
    ensures v.run < |v.tstat|
  {
  }

  lemma Disables(k: K, v: View)
    requires Scene(k, v)
    ensures Enabled(k, Task(DisDsp)) && Scene(Step(k, Task(DisDsp)).0, v.(disdsp := true))
  {
    hide Inv, Core, Sane, Shape, Scene, Plain;
    SceneFacts(k, v);
    SceneFields(k, v);
    NextScene(k, Task(DisDsp), v.(disdsp := true));
  }

  lemma Enables(k: K, v: View)
    requires Scene(k, v) && v.rq != [] && v.rq[0] < |v.tstat|
    ensures Enabled(k, Task(EnaDsp)) && Scene(Step(k, Task(EnaDsp)).0, v.(disdsp := false, run := v.rq[0]))
  {
    hide Inv, Core, Sane, Shape, Scene, Plain;
    SceneFacts(k, v);
    SceneFields(k, v);
    NextScene(k, Task(EnaDsp), v.(disdsp := false, run := v.rq[0]));
  }

  /** Two ready tasks of one priority change places. */
  lemma Rotates(k: K, v: View, p: nat)
    requires Scene(k, v) && v.rq == [0, 1] && v.pri == [p, p] && |v.tstat| == 2 && p < TNUM_TPRI
    ensures Enabled(k, Task(RotRdq(Some(p))))
    ensures Scene(Step(k, Task(RotRdq(Some(p)))).0, v.(rq := [1, 0], run := if v.disdsp then v.run else 1))
    ensures FirstOf(k.q.rq, k.t.pri, p) == Some(0)
  {
    hide Inv, Core, Sane, Shape, Scene, Plain;
    SceneFacts(k, v);
    SceneFields(k, v);
    assert Remove([0, 1], 0) == [1];
    assert InsertLast([1], [p, p], 0) == [1] + InsertLast([], [p, p], 0);
    assert Rotate(k, p).q.rq == [1, 0];
    NextScene(k, Task(RotRdq(Some(p))), v.(rq := [1, 0], run := if v.disdsp then v.run else 1));
  }

  /** The running task of two goes away, one way or another, with all it holds. */
  lemma Leaves(k: K, v: View, op: Op, s: TStat)
    requires Scene(k, v) && v.rq == [0, 1] && v.run == 0 && |v.tstat| == 2 && !v.disdsp
    requires match op
             case Task(SusTsk(t)) => t == 0 && s == Suspended
             case Task(SlpTsk(tmo)) => tmo == TMO_FEVR && s == Waiting(WaitSlp, false)
             case Task(DlyTsk(d)) => d <= TMAX_RELTIM && s == Waiting(WaitDly, false)
             case Task(WaiSem(o, tmo)) => tmo == TMO_FEVR && v.cfg.IsSem(o) && o < |v.cnt| && v.cnt[o] == 0
                                          && s == Waiting(WaitObj(o), false)
             case _ => false
    ensures Enabled(k, op) && Step(k, op).1 == if op.call.SusTsk? then Ret(E_OK) else Blocks
    ensures Scene(Step(k, op).0, v.(tstat := [s, v.tstat[1]], rq := [1], run := 1))
  {
    hide Inv, Core, Sane, Shape, Scene, Plain, Remove;
    SceneFacts(k, v);
    SceneFields(k, v);
    FirstRemoved(k.q.rq);
    assert k.t.flag[0] == Flags(false, false, false) by { PlainAt(k.t.flag, 0); }
    assert v.tstat[0 := s] == [s, v.tstat[1]];
    NextScene(k, op, v.(tstat := [s, v.tstat[1]], rq := [1], run := 1));
  }

  lemma FirstRemoved(q: seq<nat>)
    requires q == [0, 1]
    ensures Remove(q, 0) == [1]
  {
  }

  lemma PlainAt(flag: seq<Flags>, t: nat)
    requires Plain(flag) && t < |flag|
    ensures flag[t] == Flags(false, false, false)
  {
  }

  // ----- Two tasks of one priority, a mutex and a semaphore ------------------

  const equals: Cfg := Cfg([1, 1], [0, 0], [MtxAttr(true, Some(1)), SemAttr(true, 1, 0)], [], 0, Period(1, 1))

  function Start(c: Cfg, p: nat, q: nat): View {
    View(c, [Runnable, Runnable], [p, q], [p, q], [[], []], [0, 1], seq(|c.obj|, _ => None), Asleep(c).q.cnt, 0, false)
  }

  /** Two tasks activated at start-up are ready in the order of the table, if their
      priorities are. */
  lemma TwoStart(c: Cfg, p: nat, q: nat)
    requires CfgOk(c) && BootOk(c, [0, 1], []) && c.ipri == [p, q] && p <= q
    ensures Scene(Boot(c, [0, 1], []), Start(c, p, q))
  {
    hide CfgOk, Inv;
    BootInv(c, [0, 1], []);
    var k := Asleep(c);
    assert k.t.tstat == [Dormant, Dormant] && k.t.held == [[], []];
    var k1 := Activate(k, 0);
    assert k1.t.tstat == [Runnable, Dormant] && k1.q.rq == [0];
    var k2 := Activate(k1, 1);
    assert InsertLast([0], [p, q], 1) == [0] + InsertLast([], [p, q], 1);
    assert k2.t.tstat == [Runnable, Runnable] && k2.q.rq == [0, 1];
    assert [0, 1][1..] == [1] && [1][1..] == [];
    assert ActivateAll(k2, []) == k2 && ActivateAll(k1, [1]) == k2 && ActivateAll(k, [0, 1]) == k2;
  }

  lemma EqualsOk()
    ensures CfgOk(equals) && AllCeiling(equals) && BootOk(equals, [0, 1], [])
    ensures equals.IsMtx(0) && equals.IsSem(1) && equals.Ceil(0) == Some(1)
    ensures var v := Start(equals, 1, 1); |v.loc| == |v.cnt| == 2 && v.loc[0] == None && v.cnt[1] == 0
  {
  }

  /** A holder that is suspended, sleeps, delays itself or waits for a semaphore leaves the
      mutex locked for the next task. */
  lemma HoldersMustStay(op: Op, s: TStat)
    requires match op
             case Task(SusTsk(t)) => t == 0 && s == Suspended
             case Task(SlpTsk(tmo)) => tmo == TMO_FEVR && s == Waiting(WaitSlp, false)
             case Task(DlyTsk(d)) => d <= TMAX_RELTIM && s == Waiting(WaitDly, false)
             case Task(WaiSem(o, tmo)) => o == 1 && tmo == TMO_FEVR && s == Waiting(WaitObj(1), false)
             case _ => false
    ensures Refutes(equals, [0, 1], [Task(LocMtx(0, TMO_FEVR)), op], 1, 0)
  {
    hide Inv, Scene, Enabled, Step, CfgOk, Locked, Asleep, Boot;
    EqualsOk();
    TwoStart(equals, 1, 1);
    var k0, v0 := Boot(equals, [0, 1], []), Start(equals, 1, 1);
    Locks(k0, v0, 0);
    var k1, v1 := Step(k0, Task(LocMtx(0, TMO_FEVR))).0, Locked(v0, 0);
    LockedView(v0, 0);
    SceneFields(k1, v1);
    Leaves(k1, v1, op, s);
    var k2, v2 := Step(k1, op).0, v1.(tstat := [s, Runnable], rq := [1], run := 1);
    LockBlocks(k2, v2, 0);
    assert Holds(k1.t.held, 0);
    assert [op] + [] == [op];
    assert [Task(LocMtx(0, TMO_FEVR))] + [op] == [Task(LocMtx(0, TMO_FEVR)), op];
    Extend(k1, op, [], 0, 0);
    Extend(k0, Task(LocMtx(0, TMO_FEVR)), [op], 1, 0);
  }

  lemma LockedView(v: View, m: nat)
    requires m < |v.loc| && v.run < |v.held|
    ensures var v1 := Locked(v, m);
            && v1.cfg == v.cfg && v1.tstat == v.tstat && v1.bpri == v.bpri && v1.pri == v.pri && v1.rq == v.rq
            && v1.cnt == v.cnt && v1.run == v.run && v1.disdsp == v.disdsp && |v1.loc| == |v.loc| && |v1.held| == |v.held|
            && v1.loc[m] == Some(v.run) && v1.held[v.run] != [] && (forall i :: 0 <= i < |v.loc| && i != m ==> v1.loc[i] == v.loc[i])
  {
  }

  /** A holder that rotates itself to the back leaves the mutex locked for the next task. */
  lemma HoldersMustLead()
    ensures Refutes(equals, [0, 1], [Task(LocMtx(0, TMO_FEVR)), Task(RotRdq(Some(1)))], 1, 0)
  {
    hide Inv, Scene, Enabled, Step, CfgOk, Locked, Asleep, Boot;
    EqualsOk();
    TwoStart(equals, 1, 1);
    var a, b := Task(LocMtx(0, TMO_FEVR)), Task(RotRdq(Some(1)));
    var k0, v0 := Boot(equals, [0, 1], []), Start(equals, 1, 1);
    Locks(k0, v0, 0);
    var k1, v1 := Step(k0, a).0, Locked(v0, 0);
    LockedView(v0, 0);
    SceneFields(k1, v1);
    Rotates(k1, v1, 1);
    var k2, v2 := Step(k1, b).0, v1.(rq := [1, 0], run := 1);
    LockBlocks(k2, v2, 0);
    assert Holds(k1.t.held, 0);
    assert [b] + [] == [b] && [a] + [b] == [a, b];
    Extend(k1, b, [], 0, 0);
    Extend(k0, a, [b], 1, 0);
  }

  /** So does a task that rotates itself to the back before it locks, while it cannot be
      preempted. */
  lemma RunnersMustLead()
    ensures var ops := [Task(DisDsp), Task(RotRdq(Some(1))), Task(PlocMtx(0)), Task(EnaDsp)];
            Refutes(equals, [0, 1], ops, 1, 0)
  {
    hide Inv, Scene, Enabled, Step, CfgOk, Locked, Asleep, Boot, Path;
    EqualsOk();
    TwoStart(equals, 1, 1);
    var a, b, c, d := Task(DisDsp), Task(RotRdq(Some(1))), Task(PlocMtx(0)), Task(EnaDsp);
    var k0, v0 := Boot(equals, [0, 1], []), Start(equals, 1, 1);
    Disables(k0, v0);
    var k1, v1 := Step(k0, a).0, v0.(disdsp := true);
    SceneFields(k1, v1);
    Rotates(k1, v1, 1);
    var k2, v2 := Step(k1, b).0, v1.(rq := [1, 0]);
    BehindBlocks(k2, v2);
    assert [b] + [c, d] == [b, c, d] && [a] + [b, c, d] == [a, b, c, d];
    Extend(k1, b, [c, d], 0, 0);
    Extend(k0, a, [b, c, d], 1, 0);
  }

  /** A task that runs undisturbed behind another one locks the mutex, and then lets it run. */
  lemma BehindBlocks(k: K, v: View)
    requires Scene(k, v) && v.run == 0 && v.rq == [1, 0] && |v.tstat| == |v.pri| == |v.bpri| == |v.held| == 2 && v.disdsp
    requires v.cfg.IsMtx(0) && |v.loc| > 0 && v.loc[0] == None && v.cfg.Ceil(0).Some?
    requires v.pri[0] <= v.cfg.Ceil(0).value <= v.bpri[0] && v.cfg.Ceil(0).value <= v.bpri[1]
    ensures Path(k, [Task(PlocMtx(0)), Task(EnaDsp)], -1, 0)
  {
    hide Inv, Scene, Enabled, Step, Locked;
    var c, d := Task(PlocMtx(0)), Task(EnaDsp);
    TriesLock(k, v, 0);
    var k3, v3 := Step(k, c).0, Locked(v, 0);
    LockedView(v, 0);
    Enables(k3, v3);
    var k4, v4 := Step(k3, d).0, v3.(disdsp := false, run := 1);
    LockBlocks(k4, v4, 0);
    assert [d] + [] == [d] && [c] + [d] == [c, d];
    Extend(k3, d, [], -2, 0);
    Extend(k, c, [d], -1, 0);
  }

  // ----- Two tasks of different priorities ----------------------------------

  const unequal: Cfg := Cfg([1, 2], [0, 0], [MtxAttr(true, Some(2))], [], 0, Period(1, 1))

  lemma UnequalOk()
    ensures CfgOk(unequal) && AllCeiling(unequal) && BootOk(unequal, [0, 1], [])
    ensures unequal.IsMtx(0) && unequal.Ceil(0) == Some(2)
    ensures var v := Start(unequal, 1, 2); |v.loc| == 1 && v.loc[0] == None
  {
  }

  /** The same happens to a task that lowers itself, before it locks, while it cannot be
      preempted. */
  lemma RunnersMustNotSink()
    ensures var ops := [Task(DisDsp), Task(ChgPri(0, Some(2))), Task(PlocMtx(0)), Task(EnaDsp)];
            Refutes(unequal, [0, 1], ops, 1, 0)
  {
    hide Inv, Scene, Enabled, Step, CfgOk, Locked, Asleep, Boot, Path;
    UnequalOk();
    TwoStart(unequal, 1, 2);
    var a, b, c, d := Task(DisDsp), Task(ChgPri(0, Some(2))), Task(PlocMtx(0)), Task(EnaDsp);
    var k0, v0 := Boot(unequal, [0, 1], []), Start(unequal, 1, 2);
    Disables(k0, v0);
    var k1, v1 := Step(k0, a).0, v0.(disdsp := true);
    Sinks(k1, v1);
    var k2, v2 := Step(k1, b).0, v1.(bpri := [2, 2], pri := [2, 2], rq := [1, 0]);
    BehindBlocks(k2, v2);
    assert [b] + [c, d] == [b, c, d] && [a] + [b, c, d] == [a, b, c, d];
    Extend(k1, b, [c, d], 0, 0);
    Extend(k0, a, [b, c, d], 1, 0);
  }

  /** A running task that cannot be preempted and holds nothing gets a new base priority. */
  lemma Rebases(k: K, v: View, b: nat)
    requires Scene(k, v) && v.disdsp && v.run < |v.held| && v.held[v.run] == [] && b < TNUM_TPRI
    requires |v.pri| == |v.bpri| == |v.held| && v.run < |v.cfg.minpri| && v.cfg.minpri[v.run] <= b
    ensures var op, pri1 := Task(ChgPri(v.run, Some(b))), v.pri[v.run := b];
            && Enabled(k, op) && Step(k, op).1 == Ret(E_OK)
            && Scene(Step(k, op).0,
                     v.(bpri := v.bpri[v.run := b], pri := pri1, rq := InsertLast(Remove(v.rq, v.run), pri1, v.run)))
  {
    hide Inv, Core, Sane, Shape, Scene, Plain, InsertLast, Remove;
    SceneFacts(k, v);
    SceneFields(k, v);
    var pri1 := v.pri[v.run := b];
    NextScene(k, Task(ChgPri(v.run, Some(b))),
              v.(bpri := v.bpri[v.run := b], pri := pri1, rq := InsertLast(Remove(v.rq, v.run), pri1, v.run)));
  }

  /** Such a task must not go behind an equal. */
  lemma BehindEqual(k: K, t: nat, b: nat, y: nat)
    requires Enabled(k, Task(ChgPri(t, Some(b)))) && Step(k, Task(ChgPri(t, Some(b)))).1 == Ret(E_OK)
    requires k.c.run == Some(t) && !Dsp(k) && !Holds(k.t.held, t) && y in k.q.rq && y != t && Pri(k.t.pri, y) == b
    ensures !Allowed(k, Task(ChgPri(t, Some(b))))
  {
    hide Step, Enabled;
  }

  lemma Sinks(k: K, v: View)
    requires Scene(k, v) && v == Start(unequal, 1, 2).(disdsp := true)
    ensures var op := Task(ChgPri(0, Some(2)));
            && Enabled(k, op) && !Allowed(k, op)
            && Scene(Step(k, op).0, v.(bpri := [2, 2], pri := [2, 2], rq := [1, 0]))
  {
    hide Scene, Asleep, Enabled, Step, Allowed;
    Rebases(k, v, 2);
    SceneFields(k, v);
    FirstRemoved(v.rq);
    assert v.bpri[0 := 2] == [2, 2] && v.pri[0 := 2] == [2, 2];
    assert InsertLast([1], [2, 2], 0) == [1] + InsertLast([], [2, 2], 0);
    assert InsertLast(Remove(v.rq, 0), v.pri[0 := 2], 0) == [1, 0];
    BehindEqual(k, 0, 2, 1);
  }

  // ----- A task that preempts another one ------------------------------------

  function Alone(c: Cfg, p: nat, q: nat): View {
    View(c, [Runnable, Dormant], [p, q], [p, q], [[], []], [0], seq(|c.obj|, _ => None), Asleep(c).q.cnt, 0, false)
  }

  lemma AloneStart(c: Cfg, p: nat, q: nat)
    requires CfgOk(c) && BootOk(c, [0], []) && c.ipri == [p, q]
    ensures Scene(Boot(c, [0], []), Alone(c, p, q))
  {
    hide CfgOk, Inv;
    BootInv(c, [0], []);
    var k := Asleep(c);
    assert k.t.tstat == [Dormant, Dormant] && k.t.held == [[], []];
    var k1 := Activate(k, 0);
    assert k1.t.tstat == [Runnable, Dormant] && k1.q.rq == [0];
    assert [0][1..] == [];
    assert ActivateAll(k1, []) == k1 && ActivateAll(k, [0]) == k1;
  }

  /** The view after the activation of the higher task. */
  function Preempted(v: View): View {
    v.(tstat := [Runnable, Runnable], rq := [1, 0], run := if v.disdsp then 0 else 1)
  }

  lemma Preempts(k: K, v: View, p: nat, q: nat)
    requires Scene(k, v) && v.tstat == [Runnable, Dormant] && v.rq == [0] && v.pri == [p, q] && q < p && v.run == 0
    ensures var op := Task(ActTsk(1)); Enabled(k, op) && Scene(Step(k, op).0, Preempted(v))
  {
    hide Inv, Core, Sane, Shape, Scene, Plain;
    SceneFacts(k, v);
    SceneFields(k, v);
    assert v.tstat[1 := Runnable] == [Runnable, Runnable];
    assert InsertLast([0], [p, q], 1) == [1, 0];
    NextScene(k, Task(ActTsk(1)), Preempted(v));
  }

  const nested: Cfg := Cfg([3, 1], [0, 0], [MtxAttr(true, Some(1)), MtxAttr(true, Some(3))], [], 0, Period(1, 1))

  lemma NestedOk()
    ensures CfgOk(nested) && AllCeiling(nested) && BootOk(nested, [0], [])
    ensures nested.IsMtx(0) && nested.IsMtx(1) && nested.Ceil(0) == Some(1) && nested.Ceil(1) == Some(3)
    ensures var v := Alone(nested, 3, 1); v.loc == [None, None]
  {
  }

  /** A holder's base priority changes behind the ceiling that it runs at. */
  lemma LowersBase(k: K, v: View)
    requires Scene(k, v) && v.run == 1 && v.cfg == nested && v.bpri == [3, 1] && v.pri == [3, 1]
    requires |v.held| == 2 && v.held[1] == [0] && v.held[0] != []
    requires v.rq != [] && v.rq[0] == 1 && !v.disdsp
    ensures var op := Task(ChgPri(1, Some(3)));
            Enabled(k, op) && !Allowed(k, op) && Scene(Step(k, op).0, v.(bpri := [3, 3]))
  {
    hide Inv, Core, Sane, Shape, Scene, Plain;
    SceneFacts(k, v);
    SceneFields(k, v);
    NestedOk();
    assert [3, 1][1 := 3] == [3, 3];
    assert 0 in k.t.held[1] && HasCeil(k.cfg, k.t.held[1]);
    assert CheckCeil(k, 1, 3);
    NextScene(k, Task(ChgPri(1, Some(3))), v.(bpri := [3, 3]));
    assert Holds(k.t.held, 0) && !NoPass(k.t, 1, 3);
  }

  /** A holder that lowers its base priority may lock what a task that it preempted holds. */
  lemma HoldersMustNotSink()
    ensures var ops := [Task(LocMtx(1, TMO_FEVR)), Task(ActTsk(1)), Task(LocMtx(0, TMO_FEVR)), Task(ChgPri(1, Some(3)))];
            Refutes(nested, [0], ops, 3, 1)
  {
    hide Inv, Scene, Enabled, Step, CfgOk, Locked, Boot, Path;
    NestedOk();
    AloneStart(nested, 3, 1);
    var a, b, c, d := Task(LocMtx(1, TMO_FEVR)), Task(ActTsk(1)), Task(LocMtx(0, TMO_FEVR)), Task(ChgPri(1, Some(3)));
    var k0, v0 := Boot(nested, [0], []), Alone(nested, 3, 1);
    Locks(k0, v0, 1);
    var k1, v1 := Step(k0, a).0, Locked(v0, 1);
    LockedView(v0, 1);
    Preempts(k1, v1, 3, 1);
    SecondLock(Step(k1, b).0, Preempted(v1));
    assert [b] + [c, d] == [b, c, d] && [a] + [b, c, d] == [a, b, c, d];
    Extend(k1, b, [c, d], 2, 1);
    Extend(k0, a, [b, c, d], 3, 1);
  }

  lemma SecondLock(k: K, v: View)
    requires Scene(k, v) && v == Preempted(Locked(Alone(nested, 3, 1), 1))
    ensures Path(k, [Task(LocMtx(0, TMO_FEVR)), Task(ChgPri(1, Some(3)))], 1, 1)
  {
    hide Inv, Scene, Enabled, Step;
    NestedOk();
    var c, d := Task(LocMtx(0, TMO_FEVR)), Task(ChgPri(1, Some(3)));
    Locks(k, v, 0);
    var k3, v3 := Step(k, c).0, Locked(v, 0);
    assert v3.held[1] == [0] && v3.held[0] == [1];
    LowersBase(k3, v3);
    var k4, v4 := Step(k3, d).0, v3.(bpri := [3, 3]);
    LockBlocks(k4, v4, 1);
    assert [d] + [] == [d] && [c] + [d] == [c, d];
    Extend(k3, d, [], 0, 1);
    Extend(k, c, [d], 1, 1);
  }

  // ----- Running tasks that cannot be preempted ------------------------------

  const rising: Cfg := Cfg([2, 1], [0, 0], [MtxAttr(true, Some(1))], [], 0, Period(1, 1))

  lemma RisingOk()
    ensures CfgOk(rising) && AllCeiling(rising) && BootOk(rising, [0], [])
    ensures rising.IsMtx(0) && rising.Ceil(0) == Some(1)
    ensures var v := Alone(rising, 2, 1); |v.loc| == 1 && v.loc[0] == None
  {
  }

  /** A task that rises, before it locks, to the priority of another ready task goes behind
      that task, and what it locks while it cannot be preempted is in the way. */
  lemma RunnersMustNotRise()
    ensures var ops := [Task(DisDsp), Task(ActTsk(1)), Task(ChgPri(0, Some(1))), Task(PlocMtx(0)), Task(EnaDsp)];
            Refutes(rising, [0], ops, 2, 0)
  {
    hide Inv, Scene, Enabled, Step, CfgOk, Locked, Asleep, Boot, Path;
    RisingOk();
    AloneStart(rising, 2, 1);
    var a, b, c, d, e := Task(DisDsp), Task(ActTsk(1)), Task(ChgPri(0, Some(1))), Task(PlocMtx(0)), Task(EnaDsp);
    var k0, v0 := Boot(rising, [0], []), Alone(rising, 2, 1);
    Disables(k0, v0);
    var k1, v1 := Step(k0, a).0, v0.(disdsp := true);
    Preempts(k1, v1, 2, 1);
    var k2, v2 := Step(k1, b).0, Preempted(v1);
    Rises(k2, v2);
    BehindBlocks(Step(k2, c).0, v2.(bpri := [1, 1], pri := [1, 1]));
    assert [c] + [d, e] == [c, d, e] && [b] + [c, d, e] == [b, c, d, e] && [a] + [b, c, d, e] == [a, b, c, d, e];
    Extend(k2, c, [d, e], 0, 0);
    Extend(k1, b, [c, d, e], 1, 0);
    Extend(k0, a, [b, c, d, e], 2, 0);
  }

  lemma Rises(k: K, v: View)
    requires Scene(k, v) && v == Preempted(Alone(rising, 2, 1).(disdsp := true))
    ensures var op := Task(ChgPri(0, Some(1)));
            && Enabled(k, op) && !Allowed(k, op) && Scene(Step(k, op).0, v.(bpri := [1, 1], pri := [1, 1]))
  {
    hide Scene, Asleep, Enabled, Step, Allowed;
    Rebases(k, v, 1);
    SceneFields(k, v);
    assert Remove(v.rq, 0) == [1] + Remove([0], 0);
    assert v.bpri[0 := 1] == [1, 1] && v.pri[0 := 1] == [1, 1];
    assert InsertLast([1], [1, 1], 0) == [1] + InsertLast([], [1, 1], 0);
    assert InsertLast(Remove(v.rq, 0), v.pri[0 := 1], 0) == [1, 0];
    BehindEqual(k, 0, 1, 1);
  }

  const passing: Cfg := Cfg([2, 1], [0, 0], [MtxAttr(true, Some(2)), MtxAttr(true, Some(2))], [], 0, Period(1, 1))

  lemma PassingOk()
    ensures CfgOk(passing) && AllCeiling(passing) && BootOk(passing, [0], [])
    ensures passing.IsMtx(0) && passing.IsMtx(1) && passing.Ceil(0) == Some(2) && passing.Ceil(1) == Some(2)
    ensures Alone(passing, 2, 1).loc == [None, None]
  {
  }

  /** A task that sinks below a holder, before it locks and while it cannot be preempted, may
      come back with its first mutex and then need the other one. */
  lemma RunnersMustNotPass()
    ensures var ops := [Task(LocMtx(1, TMO_FEVR)), Task(ActTsk(1)), Task(DisDsp), Task(ChgPri(1, Some(3))), Task(PlocMtx(0)), Task(EnaDsp)];
            Refutes(passing, [0], ops, 3, 1)
  {
    hide Inv, Scene, Enabled, Step, CfgOk, Locked, Boot, Path;
    PassingOk();
    AloneStart(passing, 2, 1);
    var a, b, c, d := Task(LocMtx(1, TMO_FEVR)), Task(ActTsk(1)), Task(DisDsp), Task(ChgPri(1, Some(3)));
    var e, f := Task(PlocMtx(0)), Task(EnaDsp);
    var k0, v0 := Boot(passing, [0], []), Alone(passing, 2, 1);
    Locks(k0, v0, 1);
    var k1, v1 := Step(k0, a).0, Locked(v0, 1);
    LockedView(v0, 1);
    Preempts(k1, v1, 2, 1);
    var k2, v2 := Step(k1, b).0, Preempted(v1);
    Disables(k2, v2);
    Returns(Step(k2, c).0, v2.(disdsp := true));
    assert [c] + [d, e, f] == [c, d, e, f] && [b] + [c, d, e, f] == [b, c, d, e, f];
    assert [a] + [b, c, d, e, f] == [a, b, c, d, e, f];
    Extend(k2, c, [d, e, f], 1, 1);
    Extend(k1, b, [c, d, e, f], 2, 1);
    Extend(k0, a, [b, c, d, e, f], 3, 1);
  }

  /** From the change of priority on. */
  lemma Returns(k: K, v: View)
    requires Scene(k, v) && v == Preempted(Locked(Alone(passing, 2, 1), 1)).(disdsp := true)
    ensures Path(k, [Task(ChgPri(1, Some(3))), Task(PlocMtx(0)), Task(EnaDsp)], 0, 1)
  {
    hide Inv, Scene, Enabled, Step;
    PassingOk();
    var d, e, f := Task(ChgPri(1, Some(3))), Task(PlocMtx(0)), Task(EnaDsp);
    Passes(k, v);
    var k4, v4 := Step(k, d).0, v.(bpri := [2, 3], pri := [2, 3], rq := [0, 1]);
    ComesBack(k4, v4);
    var k5, v5 := Step(k4, e).0, Locked(v4, 0).(pri := [2, 2], rq := [1, 0]);
    Enables(k5, v5);
    var k6, v6 := Step(k5, f).0, v5.(disdsp := false, run := 1);
    LockBlocks(k6, v6, 1);
    assert [f] + [] == [f] && [e] + [f] == [e, f] && [d] + [e, f] == [d, e, f];
    Extend(k5, f, [], -2, 1);
    Extend(k4, e, [f], -1, 1);
    Extend(k, d, [e, f], 0, 1);
  }

  lemma Passes(k: K, v: View)
    requires Scene(k, v) && v == Preempted(Locked(Alone(passing, 2, 1), 1)).(disdsp := true)
    ensures var op := Task(ChgPri(1, Some(3)));
            && Enabled(k, op) && !Allowed(k, op)
            && Scene(Step(k, op).0, v.(bpri := [2, 3], pri := [2, 3], rq := [0, 1]))
  {
    hide Scene, Asleep, Enabled, Step, Allowed;
    PassingOk();
    Rebases(k, v, 3);
    SceneFields(k, v);
    assert v.held[0] == [1] && v.held[1] == [];
    assert Remove(v.rq, 1) == [0];
    assert v.bpri[1 := 3] == [2, 3] && v.pri[1 := 3] == [2, 3];
    assert InsertLast([0], [2, 3], 1) == [0] + InsertLast([], [2, 3], 1);
    assert InsertLast(Remove(v.rq, 1), v.pri[1 := 3], 1) == [0, 1];
    SinksBelow(k, 1, 3, 0);
  }

  /** The rule that such a call breaks. */
  lemma SinksBelow(k: K, t: nat, b: nat, h: nat)
    requires Enabled(k, Task(ChgPri(t, Some(b)))) && Step(k, Task(ChgPri(t, Some(b)))).1 == Ret(E_OK)
    requires k.c.run == Some(t) && !Dsp(k) && Holds(k.t.held, h) && h != t
    requires Pri(k.t.bpri, t) < Pri(k.t.pri, h) <= b
    ensures !Allowed(k, Task(ChgPri(t, Some(b))))
  {
    hide Step, Enabled;
    assert !NoPass(k.t, t, b);
  }

  /** The first mutex lifts the task ahead of the holder again. */
  lemma ComesBack(k: K, v: View)
    requires Scene(k, v)
    requires v == Preempted(Locked(Alone(passing, 2, 1), 1)).(disdsp := true, bpri := [2, 3], pri := [2, 3], rq := [0, 1])
    ensures var op := Task(PlocMtx(0));
            Enabled(k, op) && Scene(Step(k, op).0, Locked(v, 0).(pri := [2, 2], rq := [1, 0]))
  {
    hide Inv, Core, Sane, Shape, Scene, Plain, Asleep, Guarded;
    SceneFacts(k, v);
    SceneFields(k, v);
    PassingOk();
    assert Remove([0, 1], 1) == [0] + Remove([1], 1);
    assert [2, 3][1 := 2] == [2, 2];
    assert InsertFirst([0], [2, 2], 1) == [1, 0];
    NextScene(k, Task(PlocMtx(0)), Locked(v, 0).(pri := [2, 2], rq := [1, 0]));
  }
}
