/** Every service call, time event and interrupt keeps the kernel invariant. */
module KernelCalls {
  import opened Basics
  import opened OrderedList
  import opened TimeEvent
  import opened KernelSpec
  import opened KernelInv

  /** No task stops being runnable, except possibly `x`. */
  ghost predicate Alive(t: seq<TStat>, t1: seq<TStat>, x: int) {
    && |t| == |t1|
    && (forall u {:trigger t1[u]} :: 0 <= u < |t| && u != x && t[u].Runnable? ==> t1[u].Runnable?)
  }

  function Elems(ms: seq<nat>): set<nat> {
    set m | m in ms
  }

  // ----- Termination --------------------------------------------------------

  /** One round of mutex_release_all settles the first mutex of the list. */
  lemma ReleaseStep(k: K, x: nat, ms: seq<nat>)
    requires Core(k, x, Elems(ms)) && NoDup(ms) && x < |k.t.tstat| && k.t.held[x] == [] && ms != []
    requires forall m :: m in ms ==> m < |k.q.loc| && k.q.loc[m] == Some(x)
    ensures Sane(k) && ms[0] < |k.q.wq| && (forall m :: m in ms ==> k.cfg.IsMtx(m) && m < |k.cfg.obj|)
    ensures k.q.wq[ms[0]] != [] ==> k.q.wq[ms[0]][0] < |k.t.tstat| && k.t.tstat[k.q.wq[ms[0]][0]].Waiting?
    ensures var k1 := HandOver(k, ms[0]);
            && k1.cfg == k.cfg && Core(k1, x, Elems(ms[1..])) && Sane(k1)
            && k1.t.held[x] == [] && k1.t.flag == k.t.flag && k1.c == k.c
            && k1.e.n == k.e.n && k1.e.ticking == k.e.ticking
            && Alive(k.t.tstat, k1.t.tstat, -1)
            && NoDup(ms[1..]) && (forall m :: m in ms[1..] ==> m < |k1.q.loc| && k1.q.loc[m] == Some(x))
  {
    hide PriOk, IdleOk, TmrOk, SemOk, LinksOk, OrderOk, ClockOk, CfgOk, EndWait, OwnOk, HandOver;
    AllMtx(k, x, ms);
    CoreSane(k, x, Elems(ms));
    var m := ms[0];
    assert m in ms;
    forall i | i in ms
      ensures k.cfg.IsMtx(i) && forall t :: 0 <= t < |k.t.held| ==> i !in k.t.held[t]
    {
      InTransit(k.cfg, k.t.held, k.q.loc, k.q.wq, Elems(ms), x, i);
    }
    HandOverCore(k, x, Elems(ms), m);
    assert Elems(ms) - {m} == Elems(ms[1..]);
    HandOverStep(k, x, m);
    RestOf(ms, k.q.loc, HandOver(k, m).q.loc, x);
    CoreSane(HandOver(k, m), x, Elems(ms[1..]));
  }

  /** mutex_release_all settles every mutex of the list. */
  lemma {:induction false} ReleaseListCore(k: K, x: nat, ms: seq<nat>)
    requires Core(k, x, Elems(ms)) && NoDup(ms) && x < |k.t.tstat| && k.t.held[x] == []
    requires forall m :: m in ms ==> m < |k.q.loc| && k.q.loc[m] == Some(x)
    ensures Sane(k) && (forall m :: m in ms ==> m < |k.cfg.obj|)
    ensures var k1 := ReleaseList(k, ms);
            && k1.cfg == k.cfg && Core(k1, x, {}) && k1.t.held[x] == [] && k1.t.flag == k.t.flag && k1.c == k.c
            && k1.e.n == k.e.n && k1.e.ticking == k.e.ticking
            && Alive(k.t.tstat, k1.t.tstat, -1)
    decreases |ms|
  {
    hide Core, EndWait, HandOver;
    CoreSane(k, x, Elems(ms));
    if ms == [] {
      assert Elems(ms) == {};
    } else {
      ReleaseStep(k, x, ms);
      ReleaseListCore(HandOver(k, ms[0]), x, ms[1..]);
    }
  }

  lemma RestOf(ms: seq<nat>, loc: seq<Option<nat>>, loc1: seq<Option<nat>>, x: nat)
    requires ms != [] && NoDup(ms) && |loc1| == |loc|
    requires forall m :: m in ms ==> m < |loc| && loc[m] == Some(x)
    requires forall i :: 0 <= i < |loc| && i != ms[0] ==> loc1[i] == loc[i]
    ensures NoDup(ms[1..]) && forall m :: m in ms[1..] ==> m < |loc1| && loc1[m] == Some(x)
  {
    forall m | m in ms[1..]
      ensures m in ms && m != ms[0]
    {
      var j :| 0 <= j < |ms[1..]| && ms[1..][j] == m;
      assert ms[j + 1] == m;
    }
  }

  lemma AllMtx(k: K, x: nat, ms: seq<nat>)
    requires Shape(k) && forall m :: m in ms ==> m < |k.q.loc| && k.q.loc[m] == Some(x)
    ensures forall m :: m in ms ==> m < |k.cfg.obj|
  {
  }

  lemma InTransit(cfg: Cfg, held: seq<seq<nat>>, loc: seq<Option<nat>>, wq: seq<seq<nat>>, ys: set<nat>, x: nat, m: nat)
    requires OwnOk(cfg, held, loc, wq, ys) && m < |loc| && loc[m] == Some(x) && x < |held| && held[x] == []
    ensures cfg.IsMtx(m) && forall t :: 0 <= t < |held| ==> m !in held[t]
  {
  }

  lemma HandOverStep(k: K, x: nat, m: nat)
    requires Shape(k) && m < |k.q.wq|
    requires k.q.wq[m] != [] ==> k.q.wq[m][0] < |k.t.tstat| && k.t.tstat[k.q.wq[m][0]].Waiting?
    ensures var k1 := HandOver(k, m);
            && k1.cfg == k.cfg
            && k1.t.flag == k.t.flag && k1.c == k.c && k1.e.n == k.e.n && k1.e.ticking == k.e.ticking
            && Alive(k.t.tstat, k1.t.tstat, -1)
            && |k1.q.loc| == |k.q.loc|
            && (forall i :: 0 <= i < |k.q.loc| && i != m ==> k1.q.loc[i] == k.q.loc[i])
  {
  }

  /** A task out of its queue may drop what it holds: its mutexes are then in transit. */
  lemma DropHeld(k: K, t: nat)
    requires Core(k, t, {}) && t < |k.t.tstat|
    ensures Core(k.(t := k.t.(held := k.t.held[t := []])), t, Elems(k.t.held[t]))
    ensures NoDup(k.t.held[t]) && forall m :: m in k.t.held[t] ==> m < |k.q.loc| && k.q.loc[m] == Some(t)
  {
    hide TmrOk, SemOk, LinksOk, OrderOk, ClockOk, CfgOk;
    var t1 := k.t.(held := k.t.held[t := []]);
    forall u | 0 <= u < |t1.tstat| && u != t
      ensures PriAt(k.cfg, t1, u)
    {
      assert PriAt(k.cfg, k.t, u);
    }
    forall u | 0 <= u < |t1.tstat|
      ensures IdleAt(k.cfg, t1, u)
    {
      assert IdleAt(k.cfg, k.t, u);
    }
  }

  /** Setting a task in no queue to dormant, with nothing queued, completes the invariant. */
  lemma DormantCore(k: K, t: nat)
    requires Core(k, t, {}) && t < |k.t.tstat| && k.t.held[t] == []
    ensures Core(SetFlag(MakeDormant(k, t), t, Flags(false, false, false)), -1, {})
  {
    hide SemOk, CfgOk, HandlersOk, ClockOk;
    IniPri(k.cfg, t);
    var k1 := SetFlag(MakeDormant(k, t), t, Flags(false, false, false));
    assert OrderOk(k1.cfg, k1.q.rq, k1.q.wq, k1.t.pri) by {
      assert t !in k.q.rq && forall o :: 0 <= o < |k.q.wq| ==> t !in k.q.wq[o];
      OtherPri(k.cfg, k.q, k.t.pri, t, k.cfg.ipri[t]);
    }
    forall u | 0 <= u < |k1.t.tstat|
      ensures PriAt(k1.cfg, k1.t, u)
    {
      assert u != t ==> PriAt(k.cfg, k.t, u);
    }
    forall u | 0 <= u < |k1.t.tstat|
      ensures IdleAt(k1.cfg, k1.t, u)
    {
      assert IdleAt(k.cfg, k.t, u);
    }
  }

  lemma IniPri(c: Cfg, t: nat)
    requires CfgOk(c) && t < |c.ipri|
    ensures c.ipri[t] < TNUM_TPRI
  {
  }

  /** ext_tsk and ter_tsk, from the point where the task is in no queue. */
  lemma TerminateCore(k: K, t: nat)
    requires Core(k, t, {}) && t < |k.t.tstat|
    ensures Sane(k)
    ensures var k1 := Terminate(k, t);
            && k1.cfg == k.cfg
            && Core(k1, -1, {}) && k1.c == k.c && k1.e.n == k.e.n && k1.e.ticking == k.e.ticking
            && Alive(k.t.tstat, k1.t.tstat, t)
            && k1.t.tstat[t] == (if k.t.flag[t].actque then Runnable else Dormant)
            && k1.t.held[t] == [] && k1.t.flag == k.t.flag[t := Flags(false, false, false)]
  {
    hide PriOk, IdleOk, TmrOk, SemOk, LinksOk, OrderOk, ClockOk, CfgOk, OwnOk, ReleaseList;
    CoreSane(k, t, {});
    DropHeld(k, t);
    var k0 := k.(t := k.t.(held := k.t.held[t := []]));
    ReleaseListCore(k0, t, k.t.held[t]);
    var k1 := ReleaseAll(k, t);
    DormantCore(k1, t);
    var d := SetFlag(MakeDormant(k1, t), t, Flags(false, false, false));
    if k1.t.flag[t].actque {
      ActivateCore(d, -1, {}, t);
      assert Terminate(k, t) == Activate(d, t);
    } else {
      assert d == MakeDormant(k1, t);
      assert Terminate(k, t) == d;
    }
  }

  /** A task that leaves its queue is in no queue. */
  lemma DetachCore(k: K, t: nat)
    requires Core(k, -1, {}) && t < |k.t.tstat| && !k.t.tstat[t].Dormant?
    ensures Core(Detach(k, t), t, {})
  {
    hide CfgOk, HandlersOk, Sorted, NoDup, PriAt, IdleAt;
    match k.t.tstat[t]
    case Runnable =>
      RemoveNoDup(k.q.rq, t);
      RemoveSorted(k.q.rq, k.t.pri, t);
    case Suspended =>
    case Waiting(f, _) =>
      DetachWaiting(k, t);
  }

  lemma DetachWaiting(k: K, t: nat)
    requires Core(k, -1, {}) && t < |k.t.tstat| && k.t.tstat[t].Waiting?
    ensures Core(Detach(k, t), t, {})
  {
    hide CfgOk, HandlersOk, Sorted, NoDup, PriAt, IdleOk, PriOk, LinksOk, OrderOk, SemOk, OwnOk;
    EndWaitOrder(k.cfg, k.t.tstat, k.q.rq, k.q.wq, k.t.pri, t);
    EndWaitObjects(k.cfg, k.t, k.q, {}, t);
    UnlinkLinks(k.t.tstat, k.q.rq, k.q.wq, t);
    WithoutTask(k.cfg, k.t, t);
    assert Unlink(k, t).q.wq == WithoutWaiter(k.t.tstat, k.q.wq, t);
    assert HandlersOk(Detach(k, t).e) by { DisarmHandlers(k.e, t); }
  }

  lemma DisarmHandlers(e: Timers, t: nat)
    requires HandlersOk(e)
    ensures HandlersOk(e.(tmr := e.tmr - {Tsk(t)}))
  {
  }

  lemma UnlinkLinks(tstat: seq<TStat>, rq: seq<nat>, wq: seq<seq<nat>>, t: nat)
    requires LinksOk(tstat, rq, wq, -1) && t < |tstat| && tstat[t].Waiting?
    ensures LinksOk(tstat, rq, WithoutWaiter(tstat, wq, t), t)
  {
    if tstat[t].fac.WaitObj? {
      RemoveNoDup(wq[tstat[t].fac.o], t);
    }
  }

  lemma WithoutTask(cfg: Cfg, t: Tasks, u: nat)
    requires PriOk(cfg, t, -1)
    ensures PriOk(cfg, t, u)
  {
  }

  // ----- The calls, one by one ----------------------------------------------

  /** What a call leaves behind before the dispatch; only task `x` may stop being runnable. */
  ghost predicate Post(k: K, k1: K, x: int) {
    && Core(k1, -1, {})
    && k1.cfg == k.cfg
    && k1.c.run == k.c.run && k1.c.inint == k.c.inint && k1.c.reqflg == k.c.reqflg
    && k1.e.n == k.e.n && k1.e.ticking == k.e.ticking
    && Alive(k.t.tstat, k1.t.tstat, x)
  }

  lemma FlagPost(k: K, t: nat, f: Flags)
    requires Core(k, -1, {}) && t < |k.t.tstat|
    requires k.t.tstat[t].Dormant? ==> f == k.t.flag[t]
    requires f.wupque ==> !(k.t.tstat[t].Waiting? && k.t.tstat[t].fac.WaitSlp?)
    ensures Post(k, SetFlag(k, t, f), -1)
  {
    hide TmrOk, SemOk, LinksOk, OrderOk, ClockOk, CfgOk, OwnOk;
    var k1 := SetFlag(k, t, f);
    forall u | 0 <= u < |k1.t.tstat|
      ensures PriAt(k1.cfg, k1.t, u) && IdleAt(k1.cfg, k1.t, u)
    {
      assert PriAt(k.cfg, k.t, u) && IdleAt(k.cfg, k.t, u);
    }
  }

  lemma ActPost(k: K, t: nat)
    requires Core(k, -1, {}) && t < |k.t.tstat|
    ensures Post(k, DoActTsk(k, t).0, -1)
  {
    hide Core;
    CoreShape(k);
    if k.t.tstat[t].Dormant? {
      ActivateCore(k, -1, {}, t);
    } else {
      SleepFlag(k, t);
      FlagPost(k, t, k.t.flag[t].(actque := true));
    }
  }

  lemma CoreShape(k: K)
    requires Core(k, -1, {})
    ensures Shape(k) && CfgOk(k.cfg) && Sane(k)
  {
    CoreSane(k, -1, {});
  }

  lemma SleepFlag(k: K, t: nat)
    requires Core(k, -1, {}) && t < |k.t.tstat|
    ensures k.t.tstat[t].Waiting? && k.t.tstat[t].fac.WaitSlp? ==> !k.t.flag[t].wupque
    ensures k.t.tstat[t].Dormant? ==> k.t.flag[t] == Flags(false, false, false) && k.t.held[t] == []
  {
    hide PriAt, PriOk, TmrOk, SemOk, LinksOk, OrderOk, ClockOk, OwnOk;
    assert IdleAt(k.cfg, k.t, t);
  }

  lemma CoreContext(k: K, c: Context)
    requires Core(k, -1, {}) && (c.run.Some? ==> c.run.value < |k.t.tstat|)
    ensures Core(k.(c := c), -1, {})
  {
    hide LinksOk, OrderOk, OwnOk, PriOk, TmrOk, SemOk, IdleOk, ClockOk, CfgOk;
  }

  lemma ExtPost(k: K, r: nat)
    requires Core(k, -1, {}) && r < |k.t.tstat| && k.t.tstat[r].Runnable?
    ensures Sane(k)
    ensures var k1 := DoExtTsk(k, r).0; Post(k, k1, r) && Dsp(k1) && k1.t.held[r] == []
  {
    hide Core, Terminate;
    CoreShape(k);
    var k0 := k.(c := k.c.(disdsp := false, ipmflg := true));
    CoreContext(k, k0.c);
    DetachCore(k0, r);
    DetachSame(k0, r);
    TerminateCore(Detach(k0, r), r);
  }

  lemma TerPost(k: K, r: nat, t: nat)
    requires Core(k, -1, {}) && t < |k.t.tstat|
    ensures Sane(k)
    ensures var k1 := DoTerTsk(k, r, t).0; Post(k, k1, if t == r then -1 else t) && k1.c == k.c
  {
    hide Core, Terminate;
    CoreShape(k);
    if t != r && !k.t.tstat[t].Dormant? {
      DetachCore(k, t);
      DetachSame(k, t);
      TerminateCore(Detach(k, t), t);
    }
  }

  lemma DetachSame(k: K, t: nat)
    requires Shape(k) && t < |k.t.tstat|
    ensures var k1 := Detach(k, t);
            k1.cfg == k.cfg && k1.t == k.t && k1.c == k.c && k1.e.n == k.e.n && k1.e.ticking == k.e.ticking
  {
  }

  lemma RebaseTasks(cfg: Cfg, t: Tasks, u: nat, b: nat, p: nat)
    requires PriOk(cfg, t, -1) && IdleOk(cfg, t) && u < |t.tstat| && !t.tstat[u].Dormant?
    requires PriAt(cfg, t, u)
    requires forall o :: o in t.held[u] && cfg.Ceil(o).Some? ==> cfg.Ceil(o).value <= b
    requires t.tstat[u].Waiting? && t.tstat[u].fac.WaitObj? && cfg.Ceil(t.tstat[u].fac.o).Some? ==>
               cfg.Ceil(t.tstat[u].fac.o).value <= b
    requires p == if HasCeil(cfg, t.held[u]) then t.pri[u] else b
    ensures var t1 := t.(bpri := t.bpri[u := b], pri := t.pri[u := p]); PriOk(cfg, t1, -1) && IdleOk(cfg, t1)
  {
    var t1 := t.(bpri := t.bpri[u := b], pri := t.pri[u := p]);
    CalcRebase(cfg, t.held[u], t.bpri[u], b);
    forall v | 0 <= v < |t1.tstat|
      ensures PriAt(cfg, t1, v)
    {
      assert PriAt(cfg, t, v);
    }
    forall v | 0 <= v < |t1.tstat|
      ensures IdleAt(cfg, t1, v)
    {
      assert IdleAt(cfg, t, v);
    }
  }

  /** With a ceiling at or above both base priorities, the base priority does not show. */
  lemma {:induction false} CalcRebase(c: Cfg, held: seq<nat>, a: nat, b: nat)
    requires forall o :: o in held && c.Ceil(o).Some? ==> c.Ceil(o).value <= a && c.Ceil(o).value <= b
    ensures HasCeil(c, held) ==> CalcPri(c, held, a) == CalcPri(c, held, b)
    ensures !HasCeil(c, held) ==> CalcPri(c, held, b) == b
    decreases |held|
  {
    if held != [] {
      assert held[0] in held && forall o :: o in held[1..] ==> o in held;
      CalcRebase(c, held[1..], a, b);
      if !HasCeil(c, held) {
        assert !HasCeil(c, held[1..]);
      } else if !HasCeil(c, held[1..]) {
        var o :| o in held && c.Ceil(o).Some?;
        assert o == held[0];
        CalcRebase(c, held[1..], b, a);
      }
    }
  }

  lemma ChgPriPost(k: K, r: nat, t: nat, tskpri: Option<nat>)
    requires Core(k, -1, {}) && t < |k.t.tstat| && r < |k.t.tstat|
    ensures Sane(k)
    ensures var k1 := DoChgPri(k, r, t, tskpri).0; Post(k, k1, -1) && k1.c == k.c
  {
    hide Core, ChangePriority, HasCeil, CheckCeil;
    CoreShape(k);
    IniPri(k.cfg, t);
    var b := if tskpri.Some? then tskpri.value else k.cfg.ipri[t];
    if b < TNUM_TPRI && !k.t.tstat[t].Dormant? && b >= k.cfg.minpri[r] && CheckCeil(k, t, b) {
      RebaseCore(k, t, b);
    }
  }

  /** A base priority that the ceilings allow takes effect unless a ceiling hides it. */
  lemma RebaseCore(k: K, t: nat, b: nat)
    requires Core(k, -1, {}) && t < |k.t.tstat| && !k.t.tstat[t].Dormant? && b < TNUM_TPRI
    requires CheckCeil(k, t, b)
    ensures var k1 := k.(t := k.t.(bpri := k.t.bpri[t := b]));
            var k2 := if HasCeil(k.cfg, k.t.held[t]) then k1 else ChangePriority(k1, t, b, false);
            && Core(k2, -1, {}) && k2.cfg == k.cfg && k2.c == k.c && k2.e == k.e && k2.t.tstat == k.t.tstat
  {
    hide TmrOk, SemOk, LinksOk, OrderOk, ClockOk, CfgOk, OwnOk, PriOk, IdleOk, ChangePriority, HasCeil, CalcPri;
    hide PriAt;
    TaskPri(k.cfg, k.t, t);
    RebaseTasks(k.cfg, k.t, t, b, if HasCeil(k.cfg, k.t.held[t]) then k.t.pri[t] else b);
    var k1 := k.(t := k.t.(bpri := k.t.bpri[t := b]));
    if !HasCeil(k.cfg, k.t.held[t]) {
      ChangePriorityQueues(k1, -1, t, b, false);
      SameWaiters(k.cfg, k.t.held, k.q, ChangePriority(k1, t, b, false).q.wq, {});
    } else {
      assert k.t.pri[t := k.t.pri[t]] == k.t.pri;
    }
  }

  lemma BlockPost(k: K, r: nat, fac: Factor, arm: Option<nat>)
    requires Shape(k) && k.cfg.per.Ok() && r < |k.t.tstat| && (fac.WaitObj? ==> fac.o < |k.q.wq|)
    requires Core(Block(k, r, fac, arm), -1, {})
    ensures Post(k, Block(k, r, fac, arm), r)
  {
    hide Core;
  }

  lemma SlpPost(k: K, r: nat, tmo: Tmo)
    requires Core(k, -1, {}) && r < |k.t.tstat| && k.t.tstat[r].Runnable?
    ensures Sane(k)
    ensures var k1 := DoSlpTsk(k, r, tmo).0; Post(k, k1, if Dsp(k) then r else -1) && k1.c == k.c
  {
    hide Core, Period.Ok;
    CoreShape(k);
    if Dsp(k) && tmo >= TMO_FEVR {
      if k.t.flag[r].wupque {
        FlagPost(k, r, k.t.flag[r].(wupque := false));
      } else if tmo != TMO_POL && !k.t.flag[r].waifbd {
        BlockCore(k, r, WaitSlp, ArmOf(tmo));
        BlockPost(k, r, WaitSlp, ArmOf(tmo));
      }
    }
  }

  lemma DlyPost(k: K, r: nat, d: nat)
    requires Core(k, -1, {}) && r < |k.t.tstat| && k.t.tstat[r].Runnable?
    ensures Sane(k)
    ensures var k1 := DoDlyTsk(k, r, d).0; Post(k, k1, if Dsp(k) then r else -1) && k1.c == k.c
  {
    hide Core, Period.Ok;
    CoreShape(k);
    if Dsp(k) && d <= TMAX_RELTIM && !k.t.flag[r].waifbd {
      BlockCore(k, r, WaitDly, Some(d));
      BlockPost(k, r, WaitDly, Some(d));
    }
  }

  lemma EndWaitPost(k: K, t: nat, er: Er)
    requires Core(k, -1, {}) && t < |k.t.tstat| && k.t.tstat[t].Waiting?
    ensures Shape(k) && Post(k, EndWait(k, t, er), -1) && EndWait(k, t, er).c == k.c
  {
    hide Core;
    CoreShape(k);
    EndWaitCore(k, -1, {}, t, er);
    EndWaitFields(k, t, er);
  }

  lemma WakePost(k: K, t: nat, texmask: bool)
    requires Core(k, -1, {}) && t < |k.t.tstat|
    ensures Shape(k)
    ensures var k1 := DoWupTsk(k, t).0; Post(k, k1, -1) && k1.c == k.c
    ensures var k1 := DoRelWai(k, t).0; Post(k, k1, -1) && k1.c == k.c
    ensures var k1 := DoDisWai(k, t, texmask).0; Post(k, k1, -1) && k1.c == k.c
    ensures var k1 := DoEnaWai(k, t).0; Post(k, k1, -1) && k1.c == k.c
  {
    hide Core, EndWait, SetFlag;
    CoreShape(k);
    SleepFlag(k, t);
    if k.t.tstat[t].Waiting? {
      EndWaitPost(k, t, E_OK);
      EndWaitPost(k, t, E_RLWAI);
    }
    if !k.t.tstat[t].Dormant? {
      var f := k.t.flag[t];
      if !(k.t.tstat[t].Waiting? && k.t.tstat[t].fac.WaitSlp?) {
        FlagPost(k, t, f.(wupque := true));
        FlagContext(k, t, f.(wupque := true));
      }
      FlagPost(k, t, f.(waifbd := true));
      FlagPost(k, t, f.(waifbd := false));
      FlagContext(k, t, f.(waifbd := true));
      FlagContext(k, t, f.(waifbd := false));
    }
  }

  lemma FlagContext(k: K, t: nat, f: Flags)
    requires Shape(k) && t < |k.t.tstat|
    ensures SetFlag(k, t, f).c == k.c
  {
  }

  lemma SuspendCore(k: K, t: nat)
    requires Core(k, -1, {}) && t < |k.t.tstat|
    ensures k.t.tstat[t].Runnable? ==> Core(MakeNonRunnable(SetTstat(k, t, Suspended), t), -1, {})
    ensures k.t.tstat[t].Waiting? ==> Core(SetTstat(k, t, k.t.tstat[t].(susp := true)), -1, {})
    ensures k.t.tstat[t].Waiting? ==> Core(SetTstat(k, t, k.t.tstat[t].(susp := false)), -1, {})
  {
    hide SemOk, OwnOk, CfgOk, ClockOk, HandlersOk, LinksOk;
    var f := k.t.tstat[t];
    RemoveSorted(k.q.rq, k.t.pri, t);
    SuspendLinks(k.t.tstat, k.q.rq, k.q.wq, t);
    TaskStates(k.cfg, k.t, t, Suspended);
    if f.Waiting? {
      TaskStates(k.cfg, k.t, t, f.(susp := true));
      TaskStates(k.cfg, k.t, t, f.(susp := false));
    }
  }

  lemma TaskStates(cfg: Cfg, t: Tasks, u: nat, s: TStat)
    requires PriOk(cfg, t, -1) && IdleOk(cfg, t) && u < |t.tstat|
    requires s.Suspended? || (s.Waiting? && t.tstat[u].Waiting? && s.fac == t.tstat[u].fac)
    ensures PriOk(cfg, t.(tstat := t.tstat[u := s]), -1) && IdleOk(cfg, t.(tstat := t.tstat[u := s]))
  {
    var t1 := t.(tstat := t.tstat[u := s]);
    forall v | 0 <= v < |t1.tstat|
      ensures PriAt(cfg, t1, v) && IdleAt(cfg, t1, v)
    {
      assert PriAt(cfg, t, v) && IdleAt(cfg, t, v);
    }
  }

  lemma SuspendLinks(tstat: seq<TStat>, rq: seq<nat>, wq: seq<seq<nat>>, t: nat)
    requires LinksOk(tstat, rq, wq, -1) && t < |tstat|
    ensures tstat[t].Runnable? ==> LinksOk(tstat[t := Suspended], Remove(rq, t), wq, -1)
    ensures forall b :: tstat[t].Waiting? ==> LinksOk(tstat[t := tstat[t].(susp := b)], rq, wq, -1)
  {
    RemoveNoDup(rq, t);
  }

  lemma SusPost(k: K, r: nat, t: nat)
    requires Core(k, -1, {}) && t < |k.t.tstat|
    ensures Shape(k)
    ensures var k1 := DoSusTsk(k, r, t).0; Post(k, k1, if t == r && !Dsp(k) then -1 else t) && k1.c == k.c
    ensures var k1 := DoRsmTsk(k, t).0; Post(k, k1, -1) && k1.c == k.c
  {
    hide Core;
    CoreShape(k);
    SuspendCore(k, t);
    if k.t.tstat[t].Suspended? {
      ActivateCore(k, -1, {}, t);
    }
  }

  // ----- Mutexes and semaphores ---------------------------------------------

  lemma MutexFacts(k: K, m: nat)
    requires Core(k, -1, {}) && k.cfg.IsMtx(m)
    ensures m < |k.q.loc|
    ensures k.q.loc[m].Some? ==> k.q.loc[m].value < |k.t.held| && m in k.t.held[k.q.loc[m].value]
    ensures forall t :: 0 <= t < |k.t.held| && m in k.t.held[t] ==> k.q.loc[m] == Some(t)
  {
    hide PriOk, IdleOk, TmrOk, SemOk, LinksOk, OrderOk, ClockOk, CfgOk;
  }

  lemma AcquirePost(k: K, r: nat, m: nat)
    requires Core(k, -1, {}) && r < |k.t.tstat| && k.t.tstat[r].Runnable? && k.cfg.IsMtx(m)
    requires m < |k.q.loc| && k.q.loc[m] == None
    requires k.cfg.Ceil(m).Some? ==> k.cfg.Ceil(m).value <= k.t.bpri[r]
    ensures Shape(k) && Post(k, Acquire(k, r, m), -1) && Acquire(k, r, m).c == k.c
  {
    hide Core;
    CoreShape(k);
    AcquireCore(k, r, m);
  }

  lemma LocPost(k: K, r: nat, m: nat, tmo: Tmo)
    requires Core(k, -1, {}) && r < |k.t.tstat| && k.t.tstat[r].Runnable? && k.cfg.IsMtx(m)
    ensures Sane(k) && m < |k.q.wq|
    ensures var k1 := DoLocMtx(k, r, m, tmo).0; Post(k, k1, if Dsp(k) then r else -1) && k1.c == k.c
    ensures var k1 := DoPlocMtx(k, r, m).0; Post(k, k1, -1) && k1.c == k.c
  {
    hide Core, Acquire, Period.Ok, Cfg.Ceil;
    CoreShape(k);
    MutexFacts(k, m);
    var c := k.cfg.Ceil(m);
    if !(c.Some? && k.t.bpri[r] < c.value) {
      if k.q.loc[m] == None {
        AcquirePost(k, r, m);
      } else if k.q.loc[m] != Some(r) && Dsp(k) && tmo >= TMO_FEVR && tmo != TMO_POL && !k.t.flag[r].waifbd {
        BlockCore(k, r, WaitObj(m), ArmOf(tmo));
        BlockPost(k, r, WaitObj(m), ArmOf(tmo));
      }
    }
  }

  lemma UnlPost(k: K, r: nat, m: nat)
    requires Core(k, -1, {}) && r < |k.t.tstat| && k.cfg.IsMtx(m)
    ensures Sane(k) && m < |k.q.wq|
    ensures var k1 := DoUnlMtx(k, r, m).0; Post(k, k1, -1) && k1.c == k.c
  {
    hide Core, GiveUp, HandOver;
    CoreShape(k);
    MutexFacts(k, m);
    if k.q.loc[m] == Some(r) {
      GiveUpCore(k, {}, r, m);
      var k1 := GiveUp(k, r, m);
      assert {} + {m} == {m};
      HeldNoDup(k, r);
      RemoveNoDup(k.t.held[r], m);
      GiveUpOk(k, r, m);
      HandOverCore(k1, -1, {m}, m);
      CoreLinks(k1, -1, {m});
      HandOverStep(k1, 0, m);
      assert {m} - {m} == {};
    }
  }

  lemma HeldNoDup(k: K, t: nat)
    requires Core(k, -1, {}) && t < |k.t.held|
    ensures NoDup(k.t.held[t])
  {
    hide PriOk, IdleOk, TmrOk, SemOk, LinksOk, OrderOk, ClockOk, CfgOk;
  }

  lemma CoreLinks(k: K, x: int, ys: set<nat>)
    requires Core(k, x, ys)
    ensures LinksOk(k.t.tstat, k.q.rq, k.q.wq, x) && Shape(k)
  {
    hide PriOk, IdleOk, TmrOk, SemOk, LinksOk, OrderOk, ClockOk, CfgOk, OwnOk;
  }

  lemma {:induction false} DrainPost(k: K, o: nat)
    requires Core(k, -1, {}) && o < |k.q.wq|
    ensures Sane(k) && Post(k, Drain(k, o), -1) && Drain(k, o).c == k.c
    ensures Drain(k, o).q.wq == k.q.wq[o := []] && Drain(k, o).q.loc == k.q.loc && Drain(k, o).t.held == k.t.held
    decreases if o < |k.q.wq| then |k.q.wq[o]| else 0
  {
    hide Core, EndWait, PopWake;
    CoreShape(k);
    if k.q.wq[o] != [] {
      CoreLinks(k, -1, {});
      PopWakeOk(k, o, E_DLT);
      PopIsEndWait(k, -1, o, E_DLT);
      EndWaitPost(k, k.q.wq[o][0], E_DLT);
      EndWaitFields(k, k.q.wq[o][0], E_DLT);
      DrainPost(PopWake(k, o, E_DLT), o);
      DrainOk(k, o);
    }
  }

  lemma IniMtxPost(k: K, m: nat)
    requires Core(k, -1, {}) && k.cfg.IsMtx(m)
    ensures Sane(k) && m < |k.q.wq|
    ensures var k1 := DoIniMtx(k, m).0; Post(k, k1, -1) && k1.c == k.c
  {
    hide Core, GiveUp, Drain, Remove;
    CoreShape(k);
    MutexFacts(k, m);
    DrainPost(k, m);
    DrainOk(k, m);
    var k1 := Drain(k, m);
    if k.q.loc[m].Some? {
      var t := k.q.loc[m].value;
      GiveUpCore(k1, {}, t, m);
      GiveUpOk(k1, t, m);
      var k2 := GiveUp(k1, t, m);
      assert {} + {m} == {m};
      HeldNoDup(k1, t);
      MutexFacts(k1, m);
      RemoveNoDup(k1.t.held[t], m);
      HandOverCore(k2, -1, {m}, m);
      assert {m} - {m} == {};
      assert DoIniMtx(k, m).0 == HandOver(k2, m);
    }
  }

  lemma SemFacts(k: K, o: nat)
    requires Core(k, -1, {}) && k.cfg.IsSem(o)
    ensures o < |k.q.cnt| && k.q.cnt[o] <= k.cfg.obj[o].max && (k.q.wq[o] != [] ==> k.q.cnt[o] == 0)
  {
    hide PriOk, IdleOk, TmrOk, LinksOk, OrderOk, ClockOk, CfgOk, OwnOk;
  }

  lemma CountCore(k: K, o: nat, n: nat)
    requires Core(k, -1, {}) && k.cfg.IsSem(o) && o < |k.q.wq| && k.q.wq[o] == [] && n <= k.cfg.obj[o].max
    ensures Core(k.(q := k.q.(cnt := k.q.cnt[o := n])), -1, {})
  {
    hide PriOk, IdleOk, TmrOk, LinksOk, OrderOk, ClockOk, CfgOk, OwnOk;
  }

  lemma SemPost(k: K, r: nat, o: nat, tmo: Tmo)
    requires Core(k, -1, {}) && r < |k.t.tstat| && k.cfg.IsSem(o)
    ensures Sane(k) && o < |k.q.wq|
    ensures k.t.tstat[r].Runnable? ==>
              var k1 := DoWaiSem(k, r, o, tmo).0; Post(k, k1, if Dsp(k) then r else -1) && k1.c == k.c
    ensures var k1 := DoPolSem(k, o).0; Post(k, k1, -1) && k1.c == k.c
  {
    hide Core, Period.Ok, Cfg.Ceil;
    CoreShape(k);
    SemFacts(k, o);
    if k.q.cnt[o] >= 1 {
      CountCore(k, o, k.q.cnt[o] - 1);
    } else if k.t.tstat[r].Runnable? && Dsp(k) && tmo >= TMO_FEVR && tmo != TMO_POL && !k.t.flag[r].waifbd {
      NoCeil(k.cfg, o);
      BlockCore(k, r, WaitObj(o), ArmOf(tmo));
      BlockPost(k, r, WaitObj(o), ArmOf(tmo));
    }
  }

  lemma NoCeil(c: Cfg, o: nat)
    requires c.IsSem(o) || c.IsQue(o)
    ensures c.Ceil(o) == None && !c.IsMtx(o) && (c.IsQue(o) ==> !c.IsSem(o))
  {
  }

  lemma SigPost(k: K, o: nat)
    requires Core(k, -1, {}) && k.cfg.IsSem(o)
    ensures Sane(k)
    ensures var k1 := DoSigSem(k, o).0; Post(k, k1, -1) && k1.c == k.c
    ensures var k1 := DoIniSem(k, o).0; Post(k, k1, -1) && k1.c == k.c
  {
    hide Core, Drain, PopWake, EndWait;
    CoreShape(k);
    SemFacts(k, o);
    if k.q.wq[o] != [] {
      PopWakeOk(k, o, E_OK);
      CoreLinks(k, -1, {});
      PopIsEndWait(k, -1, o, E_OK);
      EndWaitPost(k, k.q.wq[o][0], E_OK);
    } else if k.q.cnt[o] < k.cfg.obj[o].max {
      CountCore(k, o, k.q.cnt[o] + 1);
    }
    DrainPost(k, o);
    InitCount(k.cfg, o);
    CountCore(Drain(k, o), o, k.cfg.obj[o].init);
  }

  lemma InitCount(c: Cfg, o: nat)
    requires CfgOk(c) && c.IsSem(o)
    ensures c.obj[o].init <= c.obj[o].max
  {
  }

  // ----- The queues of other objects ----------------------------------------

  lemma {:induction false} WakeAllPost(k: K, o: nat, ts: seq<nat>)
    requires Core(k, -1, {})
    ensures |k.t.tstat| == |k.t.winfo|
    ensures Post(k, WakeAll(k, o, ts), -1) && WakeAll(k, o, ts).c == k.c
    decreases |ts|
  {
    hide Core, EndWait;
    CoreShape(k);
    if ts != [] {
      if WaitsOn(k, ts[0], o) {
        EndWaitPost(k, ts[0], E_OK);
        WakeAllPost(EndWait(k, ts[0], E_OK), o, ts[1..]);
      } else {
        WakeAllPost(k, o, ts[1..]);
      }
    }
  }

  lemma QuePost(k: K, r: nat, o: nat, tmo: Tmo)
    requires Core(k, -1, {}) && r < |k.t.tstat| && k.cfg.IsQue(o) && k.t.tstat[r].Runnable?
    ensures Sane(k) && o < |k.q.wq|
    ensures var k1 := DoWaiQue(k, r, o, tmo).0; Post(k, k1, if Dsp(k) then r else -1) && k1.c == k.c
  {
    hide Core, Period.Ok, Cfg.Ceil;
    CoreShape(k);
    QueFacts(k, o);
    if Dsp(k) && tmo >= TMO_FEVR && tmo != TMO_POL && !k.t.flag[r].waifbd {
      NoCeil(k.cfg, o);
      BlockCore(k, r, WaitObj(o), ArmOf(tmo));
      BlockPost(k, r, WaitObj(o), ArmOf(tmo));
    }
  }

  lemma QueFacts(k: K, o: nat)
    requires Shape(k) && k.cfg.IsQue(o)
    ensures o < |k.q.wq|
  {
  }

  lemma IniQuePost(k: K, o: nat, o2: nat)
    requires Core(k, -1, {}) && k.cfg.IsQue(o) && k.cfg.IsQue(o2)
    ensures Sane(k) && o < |k.q.wq| && o2 < |k.q.wq|
    ensures var k1 := DoIniQue(k, o, o2).0; Post(k, k1, -1) && k1.c == k.c
  {
    hide Core, Drain;
    CoreShape(k);
    QueFacts(k, o);
    QueFacts(k, o2);
    DrainPost(k, o);
    DrainOk(k, o);
    DrainPost(Drain(k, o), o2);
    DrainOk(Drain(k, o), o2);
  }

  // ----- Rotation and timers ------------------------------------------------

  lemma RotPost(k: K, p: nat)
    requires Core(k, -1, {})
    ensures var k1 := DoRotRdq(k, p).0; Post(k, k1, -1) && k1.c == k.c
  {
    hide PriOk, IdleOk, TmrOk, SemOk, ClockOk, CfgOk, OwnOk;
    var q := k.q.rq;
    var f := FirstOf(q, k.t.pri, p);
    if f.Some? {
      RemoveNoDup(q, f.value);
      RemoveSorted(q, k.t.pri, f.value);
      InsertLastOk(Remove(q, f.value), k.t.pri, f.value);
    }
  }

  lemma HandlerPost(k: K, e: Timers)
    requires Core(k, -1, {}) && HandlersOk(e) && ClockOk(k.cfg, e)
    requires |e.cycsta| == |e.evttim| == |k.cfg.cyc| && |e.almsta| == k.cfg.nalm
    requires e.n == k.e.n && e.ticking == k.e.ticking
    requires forall t :: Tsk(t) in e.tmr <==> Tsk(t) in k.e.tmr
    ensures Post(k, k.(e := e), -1)
  {
    hide PriOk, IdleOk, SemOk, ClockOk, CfgOk, OwnOk, LinksOk, OrderOk;
  }

  lemma CycPost(k: K, i: nat)
    requires Core(k, -1, {}) && i < |k.cfg.cyc|
    ensures Sane(k)
    ensures var k1 := DoStaCyc(k, i).0; Post(k, k1, -1) && k1.c == k.c
    ensures var k1 := DoStpCyc(k, i).0; Post(k, k1, -1) && k1.c == k.c
  {
    hide Core, Period.Ceil, Period.Floor;
    CoreShape(k);
    TimerFacts(k);
    HandlerPost(k, DoStaCyc(k, i).0.e);
    HandlerPost(k, DoStpCyc(k, i).0.e);
  }

  lemma AlmPost(k: K, i: nat, d: nat)
    requires Core(k, -1, {}) && i < k.cfg.nalm
    ensures Sane(k)
    ensures var k1 := DoStaAlm(k, i, d).0; Post(k, k1, -1) && k1.c == k.c
    ensures var k1 := DoStpAlm(k, i).0; Post(k, k1, -1) && k1.c == k.c
  {
    hide Core, Period.Ceil, Period.Floor;
    CoreShape(k);
    TimerFacts(k);
    HandlerPost(k, DoStaAlm(k, i, d).0.e);
    HandlerPost(k, DoStpAlm(k, i).0.e);
  }

  lemma TimerFacts(k: K)
    requires Core(k, -1, {})
    ensures HandlersOk(k.e) && ClockOk(k.cfg, k.e)
    ensures Lowest(k.cfg.per, k.e) < k.cfg.per.Ceil(k.e.n + 1)
  {
    hide PriOk, IdleOk, SemOk, OwnOk, LinksOk, OrderOk;
    AfterLowest(k.cfg.per, k.e);
  }

  /** Locking a mutex never calls for a dispatch: the running task stays the highest. */
  lemma AcquireKeepsHighest(k: K, r: nat, m: nat)
    requires Core(k, -1, {}) && r < |k.t.tstat| && k.t.tstat[r].Runnable? && m < |k.q.wq| && Sched(k) == Some(r)
    ensures Shape(k) && Sched(Acquire(k, r, m)) == Some(r)
  {
    hide OwnOk, PriOk, TmrOk, SemOk, IdleOk, ClockOk, CfgOk;
    if k.cfg.Ceil(m).Some? && k.cfg.Ceil(m).value < k.t.pri[r] {
      RemoveNoDup(k.q.rq, r);
      var q := Remove(k.q.rq, r);
      assert q != [] ==> q[0] in q && q[0] in k.q.rq;
    }
  }

  // ----- Every step ---------------------------------------------------------

  predicate OnMutex(call: Call) {
    call.LocMtx? || call.PlocMtx? || call.UnlMtx? || call.IniMtx?
  }

  predicate OnSem(call: Call) {
    call.SigSem? || call.WaiSem? || call.PolSem? || call.IniSem?
  }

  /** A task that may not stop being runnable is still runnable. */
  lemma AliveFact(k: K, r: nat)
    requires Core(k, -1, {}) && r < |k.t.tstat| && k.t.tstat[r].Runnable?
    ensures forall k1, x :: x != r && Post(k, k1, x) ==> r < |k1.t.tstat| && k1.t.tstat[r].Runnable?
    ensures forall c: Context :: Core(k.(c := c), -1, {}) && c.run == k.c.run && c.inint == k.c.inint && c.reqflg == k.c.reqflg
              ==> Post(k, k.(c := c), -1)
  {
    hide Core;
  }

  // The calls that may end waits, or start one, of tasks other than through an object.
  predicate OnTask(call: Call) {
    call.ExtTsk? || call.TerTsk? || call.ChgPri? || call.SlpTsk? || call.WupTsk? || call.RelWai? || call.DlyTsk?
  }

  predicate OnQue(call: Call) {
    call.WaiQue? || call.WakQue? || call.IniQue?
  }

  lemma QueCallPost(k: K, r: nat, call: Call)
    requires Core(k, -1, {}) && r < |k.t.tstat| && k.t.tstat[r].Runnable? && ArgsOk(k.cfg, call) && OnQue(call)
    ensures Sane(k)
    ensures var k1 := DoCall(k, r, call).0;
            Post(k, k1, r) || (exists x :: x != r && Post(k, k1, x))
    ensures var k1 := DoCall(k, r, call).0; Dsp(k1) || (r < |k1.t.tstat| && k1.t.tstat[r].Runnable?)
  {
    hide Core, Block, Drain, EndWait, Post, Shape, DoIniQue, WakeAll;
    AliveFact(k, r);
    CoreShape(k);
    match call
    case WaiQue(o, tmo) => QuePost(k, r, o, tmo);
    case WakQue(o, ts) => WakeAllPost(k, o, ts);
    case IniQue(o, o2) => IniQuePost(k, o, o2);
  }

  lemma ObjectCallPost(k: K, r: nat, call: Call)
    requires Core(k, -1, {}) && r < |k.t.tstat| && k.t.tstat[r].Runnable? && ArgsOk(k.cfg, call)
    requires OnMutex(call) || OnSem(call)
    ensures Sane(k)
    ensures var k1 := DoCall(k, r, call).0;
            Post(k, k1, r) || (exists x :: x != r && Post(k, k1, x))
    ensures var k1 := DoCall(k, r, call).0; Dsp(k1) || (r < |k1.t.tstat| && k1.t.tstat[r].Runnable?)
  {
    hide Core, EndWait, Block, Terminate, Drain, HandOver, GiveUp, Acquire, PopWake, SetFlag, Rotate, CheckCeil, HasCeil, Post, Shape;
    AliveFact(k, r);
    CoreShape(k);
    match call
    case LocMtx(m, tmo) => LocPost(k, r, m, tmo);
    case PlocMtx(m) => LocPost(k, r, m, 0);
    case UnlMtx(m) => UnlPost(k, r, m);
    case IniMtx(m) => IniMtxPost(k, m);
    case SigSem(o) => SigPost(k, o);
    case WaiSem(o, tmo) => SemPost(k, r, o, tmo);
    case PolSem(o) => SemPost(k, r, o, 0);
    case IniSem(o) => SigPost(k, o);
  }

  lemma SystemCallPost(k: K, r: nat, call: Call)
    requires Core(k, -1, {}) && r < |k.t.tstat| && k.t.tstat[r].Runnable? && ArgsOk(k.cfg, call)
    requires call.RotRdq? || call.DisDsp? || call.EnaDsp? || call.ChgIpm?
    ensures Sane(k)
    ensures var k1 := DoCall(k, r, call).0; Post(k, k1, -1) && r < |k1.t.tstat| && k1.t.tstat[r].Runnable?
  {
    hide Core, DoRotRdq, WqOk, HeldOk, CeilOk, Shape, Post;
    AliveFact(k, r);
    CoreShape(k);
    match call
    case RotRdq(p) => RotPost(k, if p.Some? then p.value else k.t.bpri[r]);
    case DisDsp => CoreContext(k, k.c.(disdsp := true));
    case EnaDsp => CoreContext(k, k.c.(disdsp := false));
    case ChgIpm(ena) => CoreContext(k, k.c.(ipmflg := ena));
  }

  predicate OnHandler(call: Call) {
    call.StaCyc? || call.StpCyc? || call.StaAlm? || call.StpAlm?
  }

  lemma HandlerCallPost(k: K, r: nat, call: Call)
    requires Core(k, -1, {}) && r < |k.t.tstat| && k.t.tstat[r].Runnable? && ArgsOk(k.cfg, call) && OnHandler(call)
    ensures Sane(k)
    ensures var k1 := DoCall(k, r, call).0; Post(k, k1, -1) && r < |k1.t.tstat| && k1.t.tstat[r].Runnable?
  {
    hide Core, DoStaCyc, DoStpCyc, DoStaAlm, DoStpAlm, WqOk, HeldOk, CeilOk, Shape, Post;
    AliveFact(k, r);
    CoreShape(k);
    match call
    case StaCyc(i) => CycPost(k, i);
    case StpCyc(i) => CycPost(k, i);
    case StaAlm(i, d) => AlmPost(k, i, d);
    case StpAlm(i) => AlmPost(k, i, 0);
  }

  /** A call by the running task `r`: if `r` cannot go on, a dispatch is possible. */
  lemma TaskCallPost(k: K, r: nat, call: Call)
    requires Core(k, -1, {}) && r < |k.t.tstat| && k.t.tstat[r].Runnable? && ArgsOk(k.cfg, call)
    ensures Sane(k)
    ensures var k1 := DoCall(k, r, call).0;
            Post(k, k1, r) || (exists x :: x != r && Post(k, k1, x))
    ensures var k1 := DoCall(k, r, call).0; Dsp(k1) || (r < |k1.t.tstat| && k1.t.tstat[r].Runnable?)
  {
    hide Core, EndWait, Block, Terminate, Drain, HandOver, GiveUp, Acquire, PopWake, SetFlag, Rotate, CheckCeil, HasCeil, Post, Shape;
    AliveFact(k, r);
    CoreShape(k);
    match call
    case ActTsk(t) => ActPost(k, t);
    case ExtTsk => ExtPost(k, r);
    case TerTsk(t) => TerPost(k, r, t);
    case ChgPri(t, p) => ChgPriPost(k, r, t, p);
    case SlpTsk(tmo) => SlpPost(k, r, tmo);
    case WupTsk(t) => WakePost(k, t, false);
    case RelWai(t) => WakePost(k, t, false);
    case SusTsk(t) => SusPost(k, r, t);
    case RsmTsk(t) => SusPost(k, r, t);
    case DlyTsk(d) => DlyPost(k, r, d);
    case DisWai(t, b) => WakePost(k, t, b);
    case EnaWai(t) => WakePost(k, t, false);
    case LocMtx(_, _) | PlocMtx(_) | UnlMtx(_) | IniMtx(_) => ObjectCallPost(k, r, call);
    case SigSem(_) | WaiSem(_, _) | PolSem(_) | IniSem(_) => ObjectCallPost(k, r, call);
    case WaiQue(_, _) | WakQue(_, _) | IniQue(_, _) => QueCallPost(k, r, call);
    case RotRdq(_) | DisDsp | EnaDsp | ChgIpm(_) => SystemCallPost(k, r, call);
    case StaCyc(_) | StpCyc(_) | StaAlm(_, _) | StpAlm(_) => HandlerCallPost(k, r, call);
  }

  lemma IntrCallPost(k: K, call: Call)
    requires Core(k, -1, {}) && FromInterrupt(call) && ArgsOk(k.cfg, call)
    ensures Sane(k)
    ensures var k1 := DoCall(k, 0, call).0; Post(k, k1, -1) && k1.c == k.c
  {
    hide Core, EndWait, PopWake, SetFlag, Rotate, WakeAll;
    CoreShape(k);
    match call
    case ActTsk(t) =>
      ActPost(k, t);
      ActContext(k, t);
    case WupTsk(t) => WakePost(k, t, false);
    case RelWai(t) => WakePost(k, t, false);
    case DisWai(t, b) => WakePost(k, t, b);
    case EnaWai(t) => WakePost(k, t, false);
    case SigSem(o) => SigPost(k, o);
    case WakQue(o, ts) => WakeAllPost(k, o, ts);
    case RotRdq(p) => RotPost(k, p.value);
    case StaAlm(i, d) => AlmPost(k, i, d);
    case StpAlm(i) => AlmPost(k, i, 0);
  }

  lemma ActContext(k: K, t: nat)
    requires Shape(k) && t < |k.t.tstat|
    ensures DoActTsk(k, t).0.c == k.c
  {
  }

  lemma InvCore(k: K)
    ensures Inv(k) <==> Core(k, -1, {}) && RunOk(k)
  {
    hide LinksOk, OrderOk, OwnOk, PriOk, TmrOk, SemOk, IdleOk, ClockOk, CfgOk, RunOk;
  }

  lemma SchedRuns(k: K)
    requires Core(k, -1, {})
    ensures Sched(k).Some? ==> Sched(k).value < |k.t.tstat| && k.t.tstat[Sched(k).value].Runnable?
  {
    hide OrderOk, OwnOk, PriOk, TmrOk, SemOk, IdleOk, ClockOk, CfgOk;
    if k.q.rq != [] {
      assert k.q.rq[0] in k.q.rq;
    }
  }

  lemma DispatchInv(k: K)
    requires Core(k, -1, {}) && !k.c.inint && !k.c.reqflg && !k.e.ticking
    requires Dsp(k) || (k.c.run.Some? && k.c.run.value < |k.t.tstat| && k.t.tstat[k.c.run.value].Runnable?)
    ensures Inv(Dispatch(k))
  {
    hide Core;
    CoreShape(k);
    SchedRuns(k);
    CoreContext(k, Dispatch(k).c);
    InvCore(Dispatch(k));
  }

  lemma RequestInv(k: K, k1: K)
    requires Inv(k) && k.c.inint && Post(k, k1, -1) && k1.c == k.c
    ensures Inv(Request(k, k1))
  {
    hide Core, Inv;
    InvCore(k);
    CoreShape(k1);
    CoreContext(k1, Request(k, k1).c);
    InvCore(Request(k, k1));
  }

  lemma TaskStepInv(k: K, call: Call)
    requires Inv(k) && Enabled(k, Task(call))
    ensures Inv(Step(k, Task(call)).0)
  {
    hide Core, DoCall, Inv, Sane, Shape;
    InvCore(k);
    TaskCallPost(k, k.c.run.value, call);
    DispatchInv(DoCall(k, k.c.run.value, call).0);
  }

  lemma FirePost(k: K, b: Blk)
    requires Inv(k) && Enabled(k, Fire(b))
    ensures Inv(DoFire(k, b))
  {
    hide Core, EndWait, Period.Ceil, Period.Floor;
    InvCore(k);
    match b
    case Tsk(t) =>
      var er := if k.t.tstat[t].fac.WaitDly? then E_OK else E_TMOUT;
      EndWaitPost(k, t, er);
      RequestInv(k, EndWait(k, t, er));
    case Cyc(i) =>
      TimerFacts(k);
      NextActivation(k, i);
      HandlerPost(k, DoFire(k, b).e);
      InvCore(DoFire(k, b));
    case Alm(i) =>
      TimerFacts(k);
      HandlerPost(k, DoFire(k, b).e);
      InvCore(DoFire(k, b));
  }

  /** The next activation of a cyclic handler is later than the last, and within reach. */
  lemma NextActivation(k: K, i: nat)
    requires HandlersOk(k.e) && ClockOk(k.cfg, k.e) && CfgOk(k.cfg) && i < |k.cfg.cyc| && Cyc(i) in k.e.tmr
    requires k.e.tmr[Cyc(i)] <= k.cfg.per.Floor(k.e.n)
    ensures i < |k.e.evttim| && k.e.evttim[i] == k.e.tmr[Cyc(i)]
    ensures var t := k.e.evttim[i] + k.cfg.cyc[i].cyctim;
            Lowest(k.cfg.per, k.e) < k.e.tmr[Cyc(i)] < t <= Highest(k.cfg.per, k.e)
  {
    hide Period.Ceil, Period.Floor;
    AfterLowest(k.cfg.per, k.e);
  }

  lemma TickInv(k: K)
    requires Inv(k)
    ensures Enabled(k, TickBegin) ==> Inv(Step(k, TickBegin).0)
    ensures Enabled(k, TickEnd) ==> Inv(Step(k, TickEnd).0)
  {
    hide LinksOk, OrderOk, OwnOk, PriOk, SemOk, IdleOk, CfgOk, Period.Ceil, Period.Floor, ClockOk, TmrOk;
    SameEvents(k.t.tstat, k.t.winfo, k.e);
    BeginTickClock(k.cfg, k.e);
    EndTickClock(k.cfg, k.e);
  }

  lemma SameEvents(tstat: seq<TStat>, winfo: seq<Winfo>, e: Timers)
    requires TmrOk(tstat, winfo, e, -1)
    ensures TmrOk(tstat, winfo, e.(n := e.n + 1, ticking := true), -1)
    ensures TmrOk(tstat, winfo, e.(ticking := false), -1)
  {
  }

  lemma BeginTickClock(cfg: Cfg, e: Timers)
    requires ClockOk(cfg, e)
    ensures !e.ticking ==> ClockOk(cfg, e.(n := e.n + 1, ticking := true))
  {
    hide Period.Ceil, Period.Floor;
    CeilMonotone(cfg.per, e.n + 1);
  }

  /** When nothing is due any more, every event lies after the tick just processed. */
  lemma EndTickClock(cfg: Cfg, e: Timers)
    requires ClockOk(cfg, e)
    ensures (forall x :: x in e.tmr ==> cfg.per.Floor(e.n) < e.tmr[x]) ==> ClockOk(cfg, e.(ticking := false))
  {
    hide Period.Ceil, Period.Floor;
  }

  lemma CeilMonotone(p: Period, n: nat)
    requires p.Ok()
    ensures p.Ceil(n) <= p.Ceil(n + 1)
  {
    CeilTick(p, n);
    CeilTick(p, n + 1);
    FloorStep(p, n);
    var d := p.deno;
    assert (n + 1) * p.nume == n * p.nume + p.nume;
    assert p.Ceil(n) * d < n * p.nume + d && (n + 1) * p.nume <= p.Ceil(n + 1) * d;
    assert (p.Ceil(n) - p.Ceil(n + 1)) * d == p.Ceil(n) * d - p.Ceil(n + 1) * d;
    ScaleBound(p.Ceil(n) - p.Ceil(n + 1), d);
  }

  lemma InterruptInv(k: K)
    requires Inv(k)
    ensures Enabled(k, EnterInt) ==> Inv(Step(k, EnterInt).0)
    ensures Enabled(k, ExitInt) ==> Inv(Step(k, ExitInt).0)
  {
    hide Core;
    InvCore(k);
    if Enabled(k, ExitInt) {
      var c := k.c.(inint := false, reqflg := false);
      CoreContext(k, c);
      var k1 := k.(c := c);
      if k.c.reqflg {
        DispatchInv(k1);
      } else {
        InvCore(k1);
      }
    }
    if Enabled(k, EnterInt) {
      CoreContext(k, k.c.(inint := true));
      InvCore(k.(c := k.c.(inint := true)));
    }
  }

  /** Every step keeps the invariant. */
  lemma StepInv(k: K, op: Op)
    requires Inv(k) && Enabled(k, op)
    ensures Inv(Step(k, op).0)
  {
    hide Inv, Sane, DoCall, DoFire;
    match op
    case Task(call) => TaskStepInv(k, call);
    case Intr(call) =>
      InvCore(k);
      IntrCallPost(k, call);
      RequestInv(k, DoCall(k, 0, call).0);
    case EnterInt => InterruptInv(k);
    case ExitInt => InterruptInv(k);
    case TickBegin => TickInv(k);
    case Fire(b) => FirePost(k, b);
    case TickEnd => TickInv(k);
  }
}
