/** The invariant of the kernel state: links, order, mutex ownership, priorities,
    timers and dispatching, one predicate each. */
module KernelInv {
  import opened Basics
  import opened OrderedList
  import opened TimeEvent
  import opened KernelSpec

  // ----- The parts of the invariant -----------------------------------------
  // `x` is a task that is being terminated and is in no queue any more, or -1;
  // `ys` are mutexes on their way from one owner to the next.

  /** Each task is in exactly the queue its state calls for, once. */
  ghost predicate LinksOk(tstat: seq<TStat>, rq: seq<nat>, wq: seq<seq<nat>>, x: int) {
    && NoDup(rq)
    && (forall t: nat {:trigger t in rq} :: t in rq <==> t < |tstat| && t != x && tstat[t].Runnable?)
    && (forall o {:trigger wq[o]} :: 0 <= o < |wq| ==>
         && NoDup(wq[o])
         && forall t: nat {:trigger t in wq[o]} :: t in wq[o] <==> t < |tstat| && t != x && IsOn(tstat[t], o))
    && (forall t {:trigger tstat[t]} :: 0 <= t < |tstat| && tstat[t].Waiting? && tstat[t].fac.WaitObj? ==>
         tstat[t].fac.o < |wq|)
  }

  predicate IsOn(s: TStat, o: nat) {
    s.Waiting? && s.fac == WaitObj(o)
  }

  /** The ready list and the priority-ordered wait queues are sorted. */
  ghost predicate OrderOk(cfg: Cfg, rq: seq<nat>, wq: seq<seq<nat>>, pri: seq<nat>) {
    && Sorted(rq, pri)
    && |wq| == |cfg.obj|
    && (forall o {:trigger wq[o]} :: 0 <= o < |wq| && cfg.obj[o].tpri ==> Sorted(wq[o], pri))
  }

  /** A mutex is in the list of a task exactly if the task is its owner; a mutex with
      waiters has an owner, who is not among them. */
  ghost predicate OwnOk(cfg: Cfg, held: seq<seq<nat>>, loc: seq<Option<nat>>, wq: seq<seq<nat>>, ys: set<nat>) {
    && |loc| == |wq| == |cfg.obj|
    && (forall t {:trigger held[t]} :: 0 <= t < |held| ==> NoDup(held[t]))
    && (forall t, m {:trigger m in held[t]} :: 0 <= t < |held| && m in held[t] ==> m < |loc| && loc[m] == Some(t))
    && (forall m {:trigger loc[m]} :: 0 <= m < |loc| && loc[m].Some? ==>
         && cfg.IsMtx(m)
         && loc[m].value < |held|
         && (m !in ys ==> m in held[loc[m].value]))
    && (forall m {:trigger wq[m]} :: 0 <= m < |wq| && cfg.IsMtx(m) && wq[m] != [] ==>
         loc[m].Some? && loc[m].value !in wq[m])
  }

  /** Current priorities are exact, and no ceiling in use is above a base priority. */
  ghost predicate PriOk(cfg: Cfg, t: Tasks, x: int) {
    forall u {:trigger PriAt(cfg, t, u)} :: 0 <= u < |t.tstat| && u != x ==> PriAt(cfg, t, u)
  }

  ghost predicate PriAt(cfg: Cfg, t: Tasks, u: nat) {
    && u < |t.tstat| && |t.tstat| == |t.pri| == |t.bpri| == |t.held|
    && t.pri[u] == CalcPri(cfg, t.held[u], t.bpri[u])
    && (forall m {:trigger cfg.Ceil(m)} :: m in t.held[u] && cfg.Ceil(m).Some? ==> cfg.Ceil(m).value <= t.bpri[u])
    && (t.tstat[u].Waiting? && t.tstat[u].fac.WaitObj? && cfg.Ceil(t.tstat[u].fac.o).Some? ==>
          cfg.Ceil(t.tstat[u].fac.o).value <= t.bpri[u])
  }

  /** A task's event is registered exactly while the task waits with a timer; a handler's
      event exactly while the handler is started. */
  ghost predicate TmrOk(tstat: seq<TStat>, winfo: seq<Winfo>, e: Timers, x: int) {
    && |winfo| == |tstat|
    && (forall t: nat {:trigger Tsk(t) in e.tmr} :: Tsk(t) in e.tmr <==>
         t < |tstat| && t != x && tstat[t].Waiting? && winfo[t].Timer?)
    && (forall t {:trigger tstat[t]} :: 0 <= t < |tstat| && tstat[t].Waiting? ==>
         && (winfo[t].Timer? || winfo[t].NoTimer?)
         && (tstat[t].fac.WaitDly? ==> winfo[t].Timer?))
    && HandlersOk(e)
  }

  ghost predicate HandlersOk(e: Timers) {
    && |e.cycsta| == |e.evttim|
    && (forall i: nat {:trigger Cyc(i) in e.tmr} :: Cyc(i) in e.tmr <==> i < |e.cycsta| && e.cycsta[i])
    && (forall i: nat {:trigger e.tmr[Cyc(i)]} :: Cyc(i) in e.tmr ==> i < |e.evttim| && e.tmr[Cyc(i)] == e.evttim[i])
    && (forall i: nat {:trigger Alm(i) in e.tmr} :: Alm(i) in e.tmr <==> i < |e.almsta| && e.almsta[i])
  }

  /** Counts are in range, and tasks wait on a semaphore only if its count is zero. */
  ghost predicate SemOk(cfg: Cfg, cnt: seq<nat>, wq: seq<seq<nat>>) {
    && |cnt| == |wq| == |cfg.obj|
    && (forall o {:trigger cnt[o]} {:trigger wq[o]} :: 0 <= o < |cnt| && cfg.obj[o].SemAttr? ==>
         cnt[o] <= cfg.obj[o].max && (wq[o] != [] ==> cnt[o] == 0))
  }

  /** Dormant tasks are in their initial state; nobody sleeps with a wake-up pending. */
  ghost predicate IdleOk(cfg: Cfg, t: Tasks) {
    forall u {:trigger IdleAt(cfg, t, u)} :: 0 <= u < |t.tstat| ==> IdleAt(cfg, t, u)
  }

  ghost predicate IdleAt(cfg: Cfg, t: Tasks, u: nat) {
    && u < |t.tstat| == |t.bpri| == |t.held| == |t.flag| == |cfg.ipri|
    && (t.tstat[u].Dormant? ==>
          t.bpri[u] == cfg.ipri[u] && t.held[u] == [] && t.flag[u] == Flags(false, false, false))
    && (t.tstat[u].Waiting? && t.tstat[u].fac.WaitSlp? ==> !t.flag[u].wupque)
  }

  /** Every registered event lies after the last processed tick and within reach. */
  ghost predicate ClockOk(cfg: Cfg, e: Timers) {
    && cfg.per.Ok()
    && (e.ticking ==> e.n > 0)
    && (forall b {:trigger e.tmr[b]} :: b in e.tmr ==> Lowest(cfg.per, e) < e.tmr[b] <= Highest(cfg.per, e))
  }

  /** Events at or before this time have all happened. */
  ghost function Lowest(per: Period, e: Timers): int
    requires per.Ok()
  {
    if Done(e) <= 0 then -1 else per.Floor(Done(e))
  }

  ghost function Highest(per: Period, e: Timers): int
    requires per.Ok()
  {
    per.Ceil(e.n + 1) + TMAX_RELTIM
  }

  function Done(e: Timers): int {
    if e.ticking then e.n - 1 else e.n
  }

  /** Whatever runs can run; if dispatching is possible and another task should run,
      an interrupt is being handled and a dispatch has been asked for. */
  ghost predicate RunOk(k: K) {
    && (k.c.run.Some? ==> k.c.run.value < |k.t.tstat| && k.t.tstat[k.c.run.value].Runnable?)
    && (k.c.run == None ==> Dsp(k))
    && (Dsp(k) && k.c.run != Sched(k) ==> k.c.inint && k.c.reqflg)
    && (k.e.ticking ==> k.c.inint)
    && (!k.c.inint ==> !k.c.reqflg)
  }

  ghost predicate Inv(k: K) {
    && CfgOk(k.cfg) && Shape(k)
    && LinksOk(k.t.tstat, k.q.rq, k.q.wq, -1)
    && OrderOk(k.cfg, k.q.rq, k.q.wq, k.t.pri)
    && OwnOk(k.cfg, k.t.held, k.q.loc, k.q.wq, {})
    && PriOk(k.cfg, k.t, -1)
    && TmrOk(k.t.tstat, k.t.winfo, k.e, -1)
    && SemOk(k.cfg, k.q.cnt, k.q.wq)
    && IdleOk(k.cfg, k.t)
    && ClockOk(k.cfg, k.e)
    && RunOk(k)
  }

  /** The invariant without its last part, with task `x` and mutexes `ys` left out. */
  ghost predicate Core(k: K, x: int, ys: set<nat>) {
    && CfgOk(k.cfg) && Shape(k)
    && LinksOk(k.t.tstat, k.q.rq, k.q.wq, x)
    && OrderOk(k.cfg, k.q.rq, k.q.wq, k.t.pri)
    && OwnOk(k.cfg, k.t.held, k.q.loc, k.q.wq, ys)
    && PriOk(k.cfg, k.t, x)
    && TmrOk(k.t.tstat, k.t.winfo, k.e, x)
    && SemOk(k.cfg, k.q.cnt, k.q.wq)
    && IdleOk(k.cfg, k.t)
    && ClockOk(k.cfg, k.e)
  }

  lemma CoreSane(k: K, x: int, ys: set<nat>)
    requires Core(k, x, ys)
    ensures Sane(k)
  {
    hide OrderOk, PriOk, TmrOk, SemOk, IdleOk, ClockOk, CfgOk;
    forall o | 0 <= o < |k.q.wq|
      ensures NoDup(k.q.wq[o]) && forall t :: t in k.q.wq[o] ==> WaitsOn(k, t, o)
    {
    }
    forall t, m | 0 <= t < |k.t.held| && m in k.t.held[t]
      ensures k.cfg.IsMtx(m)
    {
      assert k.q.loc[m] == Some(t);
    }
  }

  // ----- Activation ---------------------------------------------------------

  lemma ActivateLinks(tstat: seq<TStat>, rq: seq<nat>, wq: seq<seq<nat>>, pri: seq<nat>, x: int, t: nat)
    requires LinksOk(tstat, rq, wq, x) && Sorted(rq, pri)
    requires t < |tstat| && t != x && (tstat[t].Dormant? || tstat[t].Suspended?)
    ensures LinksOk(tstat[t := Runnable], InsertLast(rq, pri, t), wq, x)
    ensures Sorted(InsertLast(rq, pri, t), pri)
  {
    InsertLastOk(rq, pri, t);
  }

  lemma ActivateCore(k: K, x: int, ys: set<nat>, t: nat)
    requires Core(k, x, ys)
    requires t < |k.t.tstat| && t != x && (k.t.tstat[t].Dormant? || k.t.tstat[t].Suspended?)
    ensures Core(Activate(k, t), x, ys)
  {
    hide LinksOk, Sorted, OwnOk, SemOk, ClockOk, CfgOk, HandlersOk;
    ActivateLinks(k.t.tstat, k.q.rq, k.q.wq, k.t.pri, x, t);
    var k1 := Activate(k, t);
    forall u | 0 <= u < |k1.t.tstat| && u != x
      ensures PriAt(k.cfg, k1.t, u)
    {
      assert PriAt(k.cfg, k.t, u);
    }
    forall u | 0 <= u < |k1.t.tstat|
      ensures IdleAt(k.cfg, k1.t, u)
    {
      assert IdleAt(k.cfg, k.t, u);
    }
  }

  // ----- The end of a wait --------------------------------------------------

  function AfterWait(s: TStat): TStat
    requires s.Waiting?
  {
    if s.susp then Suspended else Runnable
  }

  function WithoutWaiter(tstat: seq<TStat>, wq: seq<seq<nat>>, t: nat): seq<seq<nat>>
    requires t < |tstat|
  {
    match tstat[t]
    case Waiting(WaitObj(o), _) => if o < |wq| then wq[o := Remove(wq[o], t)] else wq
    case _ => wq
  }

  lemma EndWaitFields(k: K, t: nat, er: Er)
    requires t < |k.t.tstat| == |k.t.winfo| && k.t.tstat[t].Waiting?
    ensures var k1 := EndWait(k, t, er);
            && k1.cfg == k.cfg && k1.c == k.c
            && k1.t == k.t.(tstat := k.t.tstat[t := AfterWait(k.t.tstat[t])], winfo := k.t.winfo[t := Wercd(er)])
            && k1.q == k.q.(rq := if k.t.tstat[t].susp then k.q.rq else InsertLast(k.q.rq, k.t.pri, t),
                            wq := WithoutWaiter(k.t.tstat, k.q.wq, t))
            && k1.e == k.e.(tmr := k.e.tmr - {Tsk(t)})
  {
  }

  lemma EndWaitLinks(tstat: seq<TStat>, rq: seq<nat>, wq: seq<seq<nat>>, pri: seq<nat>, x: int, t: nat)
    requires LinksOk(tstat, rq, wq, x) && Sorted(rq, pri)
    requires t < |tstat| && t != x && tstat[t].Waiting?
    ensures LinksOk(tstat[t := AfterWait(tstat[t])], if tstat[t].susp then rq else InsertLast(rq, pri, t),
                    WithoutWaiter(tstat, wq, t), x)
    ensures Sorted(InsertLast(rq, pri, t), pri)
  {
    InsertLastOk(rq, pri, t);
    if tstat[t].fac.WaitObj? {
      RemoveNoDup(wq[tstat[t].fac.o], t);
    }
  }

  lemma EndWaitOrder(cfg: Cfg, tstat: seq<TStat>, rq: seq<nat>, wq: seq<seq<nat>>, pri: seq<nat>, t: nat)
    requires OrderOk(cfg, rq, wq, pri) && t < |tstat| && tstat[t].Waiting?
    ensures OrderOk(cfg, rq, WithoutWaiter(tstat, wq, t), pri)
  {
    if tstat[t].fac.WaitObj? && tstat[t].fac.o < |wq| {
      var o := tstat[t].fac.o;
      if cfg.obj[o].tpri {
        RemoveSorted(wq[o], pri, t);
      }
    }
  }

  lemma EndWaitObjects(cfg: Cfg, t: Tasks, q: Queues, ys: set<nat>, u: nat)
    requires OwnOk(cfg, t.held, q.loc, q.wq, ys) && SemOk(cfg, q.cnt, q.wq)
    requires u < |t.tstat| && t.tstat[u].Waiting?
    ensures OwnOk(cfg, t.held, q.loc, WithoutWaiter(t.tstat, q.wq, u), ys)
    ensures SemOk(cfg, q.cnt, WithoutWaiter(t.tstat, q.wq, u))
  {
  }

  lemma EndWaitTasks(cfg: Cfg, t: Tasks, e: Timers, x: int, u: nat, er: Er)
    requires PriOk(cfg, t, x) && TmrOk(t.tstat, t.winfo, e, x) && IdleOk(cfg, t)
    requires u < |t.tstat| && t.tstat[u].Waiting? && ClockOk(cfg, e)
    ensures var t1 := t.(tstat := t.tstat[u := AfterWait(t.tstat[u])], winfo := t.winfo[u := Wercd(er)]);
            var e1 := e.(tmr := e.tmr - {Tsk(u)});
            PriOk(cfg, t1, x) && TmrOk(t1.tstat, t1.winfo, e1, x) && IdleOk(cfg, t1) && ClockOk(cfg, e1)
  {
    var t1 := t.(tstat := t.tstat[u := AfterWait(t.tstat[u])], winfo := t.winfo[u := Wercd(er)]);
    forall v | 0 <= v < |t1.tstat| && v != x
      ensures PriAt(cfg, t1, v)
    {
      assert PriAt(cfg, t, v);
    }
    forall v | 0 <= v < |t1.tstat|
      ensures IdleAt(cfg, t1, v)
    {
      assert IdleAt(cfg, t, v);
    }
  }

  lemma EndWaitCore(k: K, x: int, ys: set<nat>, t: nat, er: Er)
    requires Core(k, x, ys)
    requires t < |k.t.tstat| && t != x && k.t.tstat[t].Waiting?
    ensures Core(EndWait(k, t, er), x, ys)
  {
    hide LinksOk, Sorted, OwnOk, SemOk, ClockOk, CfgOk, HandlersOk, PriOk, IdleOk, TmrOk, EndWait, WithoutWaiter;
    EndWaitFields(k, t, er);
    EndWaitLinks(k.t.tstat, k.q.rq, k.q.wq, k.t.pri, x, t);
    EndWaitOrder(k.cfg, k.t.tstat, k.q.rq, k.q.wq, k.t.pri, t);
    EndWaitObjects(k.cfg, k.t, k.q, ys, t);
    EndWaitTasks(k.cfg, k.t, k.e, x, t, er);
  }

  /** The head of a wait queue leaves it the way any waiter does. */
  lemma PopIsEndWait(k: K, x: int, o: nat, er: Er)
    requires Shape(k) && LinksOk(k.t.tstat, k.q.rq, k.q.wq, x) && o < |k.q.wq| && k.q.wq[o] != []
    ensures var u := k.q.wq[o][0];
            && u < |k.t.tstat| && u != x && k.t.tstat[u].Waiting? && k.t.tstat[u].fac == WaitObj(o)
            && PopWake(k, o, er) == EndWait(k, u, er)
  {
    var u := k.q.wq[o][0];
    assert u in k.q.wq[o];
    assert Remove(k.q.wq[o], u) == k.q.wq[o][1..];
  }

  lemma {:induction false} DrainCore(k: K, x: int, ys: set<nat>, o: nat)
    requires Core(k, x, ys) && o < |k.q.wq|
    ensures Sane(k) && Core(Drain(k, o), x, ys)
    decreases if o < |k.q.wq| then |k.q.wq[o]| else 0
  {
    hide LinksOk, OrderOk, OwnOk, SemOk, ClockOk, CfgOk, PriOk, IdleOk, TmrOk, EndWait, PopWake;
    CoreSane(k, x, ys);
    if k.q.wq[o] != [] {
      PopWakeOk(k, o, E_DLT);
      PopIsEndWait(k, x, o, E_DLT);
      EndWaitCore(k, x, ys, k.q.wq[o][0], E_DLT);
      DrainCore(PopWake(k, o, E_DLT), x, ys, o);
    }
  }

  // ----- The start of a wait ------------------------------------------------

  lemma BlockLinks(tstat: seq<TStat>, rq: seq<nat>, wq: seq<seq<nat>>, wq1: seq<seq<nat>>, r: nat, fac: Factor)
    requires LinksOk(tstat, rq, wq, -1) && r < |tstat| && tstat[r].Runnable?
    requires |wq1| == |wq|
    requires fac.WaitObj? ==> fac.o < |wq|
    requires forall o {:trigger wq1[o]} :: 0 <= o < |wq| && fac != WaitObj(o) ==> wq1[o] == wq[o]
    requires fac.WaitObj? && r !in wq[fac.o] ==>
               NoDup(wq1[fac.o]) && forall t :: t in wq1[fac.o] <==> t == r || t in wq[fac.o]
    ensures LinksOk(tstat[r := Waiting(fac, false)], Remove(rq, r), wq1, -1)
  {
    RemoveNoDup(rq, r);
    if fac.WaitObj? {
      assert r !in wq[fac.o];
    }
  }

  lemma EnqueueOk(k: K, o: nat, t: nat)
    requires OrderOk(k.cfg, k.q.rq, k.q.wq, k.t.pri) && o < |k.q.wq| && NoDup(k.q.wq[o]) && t !in k.q.wq[o]
    ensures var w := Enqueue(k, o, t);
            && NoDup(w) && (forall u :: u in w <==> u == t || u in k.q.wq[o])
            && (k.cfg.obj[o].tpri ==> Sorted(w, k.t.pri))
  {
    if k.cfg.obj[o].tpri {
      InsertLastOk(k.q.wq[o], k.t.pri, t);
    }
  }

  lemma BlockTasks(cfg: Cfg, t: Tasks, e: Timers, r: nat, fac: Factor, arm: Option<nat>)
    requires PriOk(cfg, t, -1) && TmrOk(t.tstat, t.winfo, e, -1) && IdleOk(cfg, t) && ClockOk(cfg, e)
    requires r < |t.tstat| && t.tstat[r].Runnable?
    requires fac.WaitObj? && cfg.Ceil(fac.o).Some? ==> r < |t.bpri| && cfg.Ceil(fac.o).value <= t.bpri[r]
    requires fac.WaitSlp? ==> r < |t.flag| && !t.flag[r].wupque
    requires fac.WaitDly? ==> arm.Some?
    requires arm.Some? ==> arm.value <= TMAX_RELTIM
    ensures var t1 := t.(tstat := t.tstat[r := Waiting(fac, false)],
                         winfo := t.winfo[r := if arm.Some? then Timer else NoTimer]);
            var e1 := e.(tmr := if arm.Some? then e.tmr[Tsk(r) := cfg.per.Ceil(e.n + 1) + arm.value] else e.tmr);
            PriOk(cfg, t1, -1) && TmrOk(t1.tstat, t1.winfo, e1, -1) && IdleOk(cfg, t1) && ClockOk(cfg, e1)
  {
    hide Period.Floor, Period.Ceil;
    var t1 := t.(tstat := t.tstat[r := Waiting(fac, false)],
                 winfo := t.winfo[r := if arm.Some? then Timer else NoTimer]);
    forall v | 0 <= v < |t1.tstat|
      ensures PriAt(cfg, t1, v)
    {
      assert PriAt(cfg, t, v);
    }
    forall v | 0 <= v < |t1.tstat|
      ensures IdleAt(cfg, t1, v)
    {
      assert IdleAt(cfg, t, v);
    }
    AfterLowest(cfg.per, e);
  }

  /** Relative times are counted from after every processed tick. */
  lemma AfterLowest(per: Period, e: Timers)
    requires per.Ok() && (e.ticking ==> e.n > 0)
    ensures Lowest(per, e) < per.Ceil(e.n + 1)
    ensures !e.ticking ==> Lowest(per, e) <= per.Floor(e.n)
    ensures per.Floor(e.n) < per.Ceil(e.n + 1)
  {
    CeilTick(per, e.n);
    if e.n > 0 {
      FloorStep(per, e.n - 1);
    }
  }

  lemma BlockCore(k: K, r: nat, fac: Factor, arm: Option<nat>)
    requires Core(k, -1, {}) && r < |k.t.tstat| && k.t.tstat[r].Runnable?
    requires fac.WaitObj? ==> fac.o < |k.q.wq|
    requires fac.WaitObj? && k.cfg.Ceil(fac.o).Some? ==> k.cfg.Ceil(fac.o).value <= k.t.bpri[r]
    requires fac.WaitObj? && k.cfg.IsMtx(fac.o) ==> k.q.loc[fac.o].Some? && k.q.loc[fac.o].value != r
    requires fac.WaitObj? && k.cfg.IsSem(fac.o) ==> k.q.cnt[fac.o] == 0
    requires fac.WaitSlp? ==> !k.t.flag[r].wupque
    requires fac.WaitDly? ==> arm.Some?
    requires arm.Some? ==> arm.value <= TMAX_RELTIM
    ensures Core(Block(k, r, fac, arm), -1, {})
  {
    hide Sorted, ClockOk, HandlersOk, PriOk, IdleOk, TmrOk, OwnOk, SemOk, LinksOk, Enqueue, Cfg.Ceil, NoDup, Period.Ok;
    var k1 := Block(k, r, fac, arm);
    BlockTasks(k.cfg, k.t, k.e, r, fac, arm);
    RemoveSorted(k.q.rq, k.t.pri, r);
    if fac.WaitObj? {
      BlockedNotIn(k, r, fac.o);
      EnqueueOk(k, fac.o, r);
      BlockObjects(k.cfg, k.t.held, k.q, fac.o, r, Enqueue(k, fac.o, r));
    }
    BlockLinks(k.t.tstat, k.q.rq, k.q.wq, k1.q.wq, r, fac);
  }

  lemma BlockedNotIn(k: K, r: nat, o: nat)
    requires LinksOk(k.t.tstat, k.q.rq, k.q.wq, -1) && r < |k.t.tstat| && k.t.tstat[r].Runnable? && o < |k.q.wq|
    ensures r !in k.q.wq[o] && NoDup(k.q.wq[o])
  {
  }

  lemma BlockObjects(cfg: Cfg, held: seq<seq<nat>>, q: Queues, o: nat, r: nat, w: seq<nat>)
    requires OwnOk(cfg, held, q.loc, q.wq, {}) && SemOk(cfg, q.cnt, q.wq) && o < |q.wq|
    requires cfg.IsMtx(o) ==> q.loc[o].Some? && q.loc[o].value != r
    requires cfg.IsSem(o) ==> q.cnt[o] == 0
    requires forall u :: u in w <==> u == r || u in q.wq[o]
    ensures OwnOk(cfg, held, q.loc, q.wq[o := w], {}) && SemOk(cfg, q.cnt, q.wq[o := w])
  {
  }

  // ----- Priorities ---------------------------------------------------------

  /** A change of priority moves the task inside its queue and keeps every queue sorted. */
  lemma ChangePriorityQueues(k: K, x: int, t: nat, p: nat, mtxmode: bool)
    requires Shape(k) && LinksOk(k.t.tstat, k.q.rq, k.q.wq, x) && OrderOk(k.cfg, k.q.rq, k.q.wq, k.t.pri)
    requires t < |k.t.tstat| && t != x
    ensures var k1 := ChangePriority(k, t, p, mtxmode);
            && LinksOk(k1.t.tstat, k1.q.rq, k1.q.wq, x)
            && OrderOk(k.cfg, k1.q.rq, k1.q.wq, k1.t.pri)
            && k1 == k.(t := k.t.(pri := k.t.pri[t := p]), q := k.q.(rq := k1.q.rq, wq := k1.q.wq))
            && |k1.q.wq| == |k.q.wq|
            && (forall o :: 0 <= o < |k.q.wq| ==> (k1.q.wq[o] == [] <==> k.q.wq[o] == []))
            && (forall o, u :: 0 <= o < |k.q.wq| ==> (u in k1.q.wq[o] <==> u in k.q.wq[o]))
  {
    hide InsertLast, InsertFirst, Remove, Sorted, NoDup;
    var pri1 := k.t.pri[t := p];
    match k.t.tstat[t]
    case Runnable =>
      RequeueOk(k.q.rq, k.t.pri, t, p);
      RequeueReady(k.cfg, k.t.tstat, k.q, k.t.pri, x, t, p, ChangePriority(k, t, p, mtxmode).q.rq);
    case Waiting(WaitObj(o), _) =>
      RequeueWaiting(k, x, t, p, o);
      assert k.q.wq[o := k.q.wq[o]] == k.q.wq;
    case _ =>
      assert t !in k.q.rq && forall o :: 0 <= o < |k.q.wq| ==> t !in k.q.wq[o];
      OtherPri(k.cfg, k.q, k.t.pri, t, p);
  }

  lemma OtherPri(cfg: Cfg, q: Queues, pri: seq<nat>, t: nat, p: nat)
    requires OrderOk(cfg, q.rq, q.wq, pri) && t < |pri|
    ensures t !in q.rq ==> Sorted(q.rq, pri[t := p])
    ensures forall o :: 0 <= o < |q.wq| && cfg.obj[o].tpri && t !in q.wq[o] ==> Sorted(q.wq[o], pri[t := p])
  {
  }

  lemma RequeueReady(cfg: Cfg, tstat: seq<TStat>, q: Queues, pri: seq<nat>, x: int, t: nat, p: nat, rq1: seq<nat>)
    requires LinksOk(tstat, q.rq, q.wq, x) && OrderOk(cfg, q.rq, q.wq, pri)
    requires t < |tstat| == |pri| && t != x && tstat[t].Runnable?
    requires NoDup(rq1) && Sorted(rq1, pri[t := p]) && (forall u :: u in rq1 <==> u in q.rq)
    ensures LinksOk(tstat, rq1, q.wq, x) && OrderOk(cfg, rq1, q.wq, pri[t := p])
  {
    assert forall o :: 0 <= o < |q.wq| ==> t !in q.wq[o];
    OtherPri(cfg, q, pri, t, p);
  }

  lemma RequeueWaiting(k: K, x: int, t: nat, p: nat, o: nat)
    requires Shape(k) && LinksOk(k.t.tstat, k.q.rq, k.q.wq, x) && OrderOk(k.cfg, k.q.rq, k.q.wq, k.t.pri)
    requires t < |k.t.tstat| && t != x && IsOn(k.t.tstat[t], o)
    ensures o < |k.q.wq| && t in k.q.wq[o]
    ensures var pri1 := k.t.pri[t := p];
            var w := if k.cfg.obj[o].tpri then InsertLast(Remove(k.q.wq[o], t), pri1, t) else k.q.wq[o];
            && LinksOk(k.t.tstat, k.q.rq, k.q.wq[o := w], x)
            && OrderOk(k.cfg, k.q.rq, k.q.wq[o := w], pri1)
            && w != [] && (forall u :: u in w <==> u in k.q.wq[o])
  {
    assert t in k.q.wq[o] && t !in k.q.rq;
    if k.cfg.obj[o].tpri {
      RequeueOk(k.q.wq[o], k.t.pri, t, p);
    }
    assert forall i :: 0 <= i < |k.q.wq| && i != o ==> t !in k.q.wq[i];
    OtherPri(k.cfg, k.q, k.t.pri, t, p);
  }

  lemma RequeueOk(q: seq<nat>, pri: seq<nat>, t: nat, p: nat)
    requires NoDup(q) && Sorted(q, pri) && t < |pri| && t in q
    ensures var pri1 := pri[t := p];
            var a := InsertLast(Remove(q, t), pri1, t);
            var b := InsertFirst(Remove(q, t), pri1, t);
            && NoDup(a) && Sorted(a, pri1) && (forall u :: u in a <==> u in q)
            && NoDup(b) && Sorted(b, pri1) && (forall u :: u in b <==> u in q)
            && a != [] && b != []
  {
    RemoveNoDup(q, t);
    RemoveSorted(q, pri, t);
    InsertLastOk(Remove(q, t), pri[t := p], t);
    InsertFirstOk(Remove(q, t), pri[t := p], t);
  }

  /** Membership and emptiness of wait queues are all that ownership and counts look at. */
  lemma SameWaiters(cfg: Cfg, held: seq<seq<nat>>, q: Queues, wq1: seq<seq<nat>>, ys: set<nat>)
    requires OwnOk(cfg, held, q.loc, q.wq, ys) && SemOk(cfg, q.cnt, q.wq) && |wq1| == |q.wq|
    requires forall o :: 0 <= o < |wq1| ==> (wq1[o] == [] <==> q.wq[o] == [])
    requires forall o, u :: 0 <= o < |wq1| ==> (u in wq1[o] <==> u in q.wq[o])
    ensures OwnOk(cfg, held, q.loc, wq1, ys) && SemOk(cfg, q.cnt, wq1)
  {
  }

  function Lower(a: nat, c: Option<nat>): nat {
    if c.Some? && c.value < a then c.value else a
  }

  lemma CalcCons(c: Cfg, m: nat, held: seq<nat>, b: nat)
    ensures CalcPri(c, [m] + held, b) == Lower(CalcPri(c, held, b), c.Ceil(m))
  {
    assert ([m] + held)[1..] == held;
  }

  lemma {:induction false} CalcSnoc(c: Cfg, held: seq<nat>, m: nat, b: nat)
    ensures CalcPri(c, held + [m], b) == Lower(CalcPri(c, held, b), c.Ceil(m))
    decreases |held|
  {
    if held == [] {
      assert held + [m] == [m] + held;
      CalcCons(c, m, held, b);
    } else {
      assert (held + [m])[1..] == held[1..] + [m];
      CalcSnoc(c, held[1..], m, b);
    }
  }

  lemma {:induction false} CalcRemove(c: Cfg, held: seq<nat>, m: nat, b: nat)
    requires m in held
    ensures CalcPri(c, held, b) == Lower(CalcPri(c, Remove(held, m), b), c.Ceil(m))
    decreases |held|
  {
    if held[0] != m {
      assert ([held[0]] + Remove(held[1..], m))[1..] == Remove(held[1..], m);
      CalcRemove(c, held[1..], m, b);
    }
  }

  // ----- Locking ------------------------------------------------------------

  lemma AcquireOwn(cfg: Cfg, held: seq<seq<nat>>, loc: seq<Option<nat>>, wq: seq<seq<nat>>, t: nat, m: nat)
    requires OwnOk(cfg, held, loc, wq, {}) && t < |held| && cfg.IsMtx(m) && loc[m] == None
    ensures OwnOk(cfg, held[t := [m] + held[t]], loc[m := Some(t)], wq, {})
  {
    assert wq[m] == [];
    assert m !in held[t];
    var held1, loc1 := held[t := [m] + held[t]], loc[m := Some(t)];
    forall u, i | 0 <= u < |held1| && i in held1[u]
      ensures i < |loc1| && loc1[i] == Some(u)
    {
      assert (i == m && u == t) || i in held[u];
    }
    forall i | 0 <= i < |loc1| && loc1[i].Some?
      ensures cfg.IsMtx(i) && loc1[i].value < |held1| && i in held1[loc1[i].value]
    {
      assert i != m ==> loc1[i] == loc[i];
    }
  }

  lemma AcquireTasks(cfg: Cfg, t: Tasks, x: int, u: nat, m: nat)
    requires PriOk(cfg, t, x) && IdleOk(cfg, t) && u < |t.tstat| && u != x && t.tstat[u].Runnable?
    requires PriAt(cfg, t, u) && (cfg.Ceil(m).Some? ==> cfg.Ceil(m).value <= t.bpri[u])
    ensures var t1 := t.(held := t.held[u := [m] + t.held[u]], pri := t.pri[u := Lower(t.pri[u], cfg.Ceil(m))]);
            PriOk(cfg, t1, x) && IdleOk(cfg, t1)
  {
    var t1 := t.(held := t.held[u := [m] + t.held[u]], pri := t.pri[u := Lower(t.pri[u], cfg.Ceil(m))]);
    CalcCons(cfg, m, t.held[u], t.bpri[u]);
    forall v | 0 <= v < |t1.tstat| && v != x
      ensures PriAt(cfg, t1, v)
    {
      assert PriAt(cfg, t, v);
    }
    forall v | 0 <= v < |t1.tstat|
      ensures IdleAt(cfg, t1, v)
    {
      assert IdleAt(cfg, t, v);
    }
  }

  lemma TaskPri(cfg: Cfg, t: Tasks, u: nat)
    requires PriOk(cfg, t, -1) && u < |t.tstat|
    ensures PriAt(cfg, t, u)
  {
  }

  lemma AcquireCore(k: K, t: nat, m: nat)
    requires Core(k, -1, {}) && t < |k.t.tstat| && k.t.tstat[t].Runnable?
    requires k.cfg.IsMtx(m) && k.q.loc[m] == None
    requires k.cfg.Ceil(m).Some? ==> k.cfg.Ceil(m).value <= k.t.bpri[t]
    ensures Core(Acquire(k, t, m), -1, {})
    ensures Acquire(k, t, m).t.tstat == k.t.tstat
  {
    hide Sorted, ClockOk, HandlersOk, PriOk, IdleOk, TmrOk, OwnOk, SemOk, LinksOk, OrderOk, Cfg.Ceil, CalcPri, PriAt;
    hide Period.Ok, ChangePriority;
    TaskPri(k.cfg, k.t, t);
    AcquireOwn(k.cfg, k.t.held, k.q.loc, k.q.wq, t, m);
    AcquireTasks(k.cfg, k.t, -1, t, m);
    var k0 := k.(q := k.q.(loc := k.q.loc[m := Some(t)]), t := k.t.(held := k.t.held[t := [m] + k.t.held[t]]));
    if k.cfg.Ceil(m).Some? && k.cfg.Ceil(m).value < k.t.pri[t] {
      ChangePriorityQueues(k0, -1, t, k.cfg.Ceil(m).value, true);
      SameWaiters(k.cfg, k0.t.held, k0.q, Acquire(k, t, m).q.wq, {});
    } else {
      assert k.t.pri[t := k.t.pri[t]] == k.t.pri;
    }
  }

  // ----- Unlocking ----------------------------------------------------------

  /** Giving up one mutex: only that mutex is now listed by nobody. */
  lemma GiveUpOwn(cfg: Cfg, held: seq<seq<nat>>, loc: seq<Option<nat>>, wq: seq<seq<nat>>, ys: set<nat>, t: nat, m: nat)
    requires OwnOk(cfg, held, loc, wq, ys) && t < |held| && m in held[t]
    ensures OwnOk(cfg, held[t := Remove(held[t], m)], loc, wq, ys + {m})
  {
    RemoveNoDup(held[t], m);
  }

  lemma GiveUpTasks(cfg: Cfg, t: Tasks, x: int, u: nat, m: nat)
    requires PriOk(cfg, t, x) && IdleOk(cfg, t) && u < |t.tstat| && u != x && !t.tstat[u].Dormant?
    requires PriAt(cfg, t, u) && m in t.held[u]
    ensures var h := Remove(t.held[u], m);
            var p := CalcPri(cfg, h, t.bpri[u]);
            var t1 := t.(held := t.held[u := h], pri := t.pri[u := p]);
            && PriOk(cfg, t1, x) && IdleOk(cfg, t1)
            && (cfg.Ceil(m) != Some(t.pri[u]) ==> p == t.pri[u])
  {
    var h := Remove(t.held[u], m);
    var p := CalcPri(cfg, h, t.bpri[u]);
    var t1 := t.(held := t.held[u := h], pri := t.pri[u := p]);
    CalcRemove(cfg, t.held[u], m, t.bpri[u]);
    forall v | 0 <= v < |t1.tstat| && v != x
      ensures PriAt(cfg, t1, v)
    {
      assert PriAt(cfg, t, v);
    }
    forall v | 0 <= v < |t1.tstat|
      ensures IdleAt(cfg, t1, v)
    {
      assert IdleAt(cfg, t, v);
    }
  }

  lemma GiveUpCore(k: K, ys: set<nat>, t: nat, m: nat)
    requires Core(k, -1, ys) && t < |k.t.tstat| && m in k.t.held[t] && k.cfg.IsMtx(m)
    ensures Core(GiveUp(k, t, m), -1, ys + {m})
    ensures var k1 := GiveUp(k, t, m);
            && k1.t.tstat == k.t.tstat && k1.q.loc == k.q.loc && k1.c == k.c && k1.e == k.e
            && k1.t.held == k.t.held[t := Remove(k.t.held[t], m)]
            && (forall o :: 0 <= o < |k.q.wq| ==> (k1.q.wq[o] == [] <==> k.q.wq[o] == []))
  {
    hide Sorted, ClockOk, HandlersOk, PriOk, IdleOk, TmrOk, OwnOk, SemOk, LinksOk, OrderOk, Cfg.Ceil, CalcPri, PriAt;
    hide Period.Ok, ChangePriority, Remove;
    TaskPri(k.cfg, k.t, t);
    HolderActive(k.cfg, k.t, t, m);
    GiveUpOwn(k.cfg, k.t.held, k.q.loc, k.q.wq, ys, t, m);
    GiveUpTasks(k.cfg, k.t, -1, t, m);
    var k0 := k.(t := k.t.(held := k.t.held[t := Remove(k.t.held[t], m)]));
    var p := CalcPri(k.cfg, k0.t.held[t], k0.t.bpri[t]);
    assert k.t.pri[t := k.t.pri[t]] == k.t.pri;
    CalcBound(k.cfg, k, k0.t.held[t], t);
    if k.cfg.Ceil(m) == Some(k.t.pri[t]) && p != k.t.pri[t] {
      ChangePriorityQueues(k0, -1, t, p, true);
      SameWaiters(k.cfg, k0.t.held, k0.q, GiveUp(k, t, m).q.wq, ys + {m});
    }
  }

  lemma CalcBound(cfg: Cfg, k: K, h: seq<nat>, t: nat)
    requires Shape(k) && t < |k.t.tstat|
    ensures CalcPri(cfg, h, k.t.bpri[t]) < TNUM_TPRI
  {
  }

  lemma HolderActive(cfg: Cfg, t: Tasks, u: nat, m: nat)
    requires IdleOk(cfg, t) && u < |t.tstat| == |t.held| && m in t.held[u]
    ensures !t.tstat[u].Dormant?
  {
    assert IdleAt(cfg, t, u);
  }

  // ----- Handing a mutex over -----------------------------------------------

  /** The state in which waiter `u` already owns mutex `m` but still waits. */
  function Promote(k: K, u: nat, m: nat): K
    requires Shape(k) && u < |k.t.tstat| && m < |k.q.wq|
  {
    k.(q := k.q.(loc := k.q.loc[m := Some(u)]),
       t := k.t.(held := k.t.held[u := k.t.held[u] + [m]], pri := k.t.pri[u := Lower(k.t.pri[u], k.cfg.Ceil(m))]))
  }

  lemma HandOverIsEndWait(k: K, x: int, m: nat)
    requires Shape(k) && LinksOk(k.t.tstat, k.q.rq, k.q.wq, x) && m < |k.q.wq| && k.q.wq[m] != []
    ensures var u := k.q.wq[m][0];
            && u < |k.t.tstat| && u != x && IsOn(k.t.tstat[u], m)
            && HandOver(k, m) == EndWait(Promote(k, u, m), u, E_OK)
  {
    var u := k.q.wq[m][0];
    assert u in k.q.wq[m];
    assert Remove(k.q.wq[m], u) == k.q.wq[m][1..];
  }

  lemma PromoteTasks(cfg: Cfg, t: Tasks, x: int, u: nat, m: nat)
    requires PriOk(cfg, t, x) && IdleOk(cfg, t) && u < |t.tstat| && u != x && IsOn(t.tstat[u], m)
    requires PriAt(cfg, t, u)
    ensures var t1 := t.(held := t.held[u := t.held[u] + [m]], pri := t.pri[u := Lower(t.pri[u], cfg.Ceil(m))]);
            PriOk(cfg, t1, x) && IdleOk(cfg, t1)
  {
    var t1 := t.(held := t.held[u := t.held[u] + [m]], pri := t.pri[u := Lower(t.pri[u], cfg.Ceil(m))]);
    CalcSnoc(cfg, t.held[u], m, t.bpri[u]);
    forall v | 0 <= v < |t1.tstat| && v != x
      ensures PriAt(cfg, t1, v)
    {
      assert PriAt(cfg, t, v);
    }
    forall v | 0 <= v < |t1.tstat|
      ensures IdleAt(cfg, t1, v)
    {
      assert IdleAt(cfg, t, v);
    }
  }

  /** The head of a sorted queue may rise. */
  lemma PromoteOrder(cfg: Cfg, tstat: seq<TStat>, q: Queues, pri: seq<nat>, x: int, u: nat, m: nat, p: nat)
    requires LinksOk(tstat, q.rq, q.wq, x) && OrderOk(cfg, q.rq, q.wq, pri)
    requires m < |q.wq| && q.wq[m] != [] && q.wq[m][0] == u
    requires u < |pri| == |tstat| && p <= pri[u]
    ensures OrderOk(cfg, q.rq, q.wq, pri[u := p])
  {
    assert u in q.wq[m];
    OtherPri(cfg, q, pri, u, p);
    assert forall o :: 0 <= o < |q.wq| && o != m ==> u !in q.wq[o];
    assert forall j :: 0 < j < |q.wq[m]| ==> q.wq[m][j] != u;
  }

  lemma HandOverOwn(cfg: Cfg, tstat: seq<TStat>, held: seq<seq<nat>>, q: Queues, x: int, ys: set<nat>, m: nat)
    requires OwnOk(cfg, held, q.loc, q.wq, ys) && LinksOk(tstat, q.rq, q.wq, x) && cfg.IsMtx(m)
    requires forall t :: 0 <= t < |held| ==> m !in held[t]
    ensures q.wq[m] == [] ==> OwnOk(cfg, held, q.loc[m := None], q.wq, ys - {m})
    ensures q.wq[m] != [] && q.wq[m][0] < |held| == |tstat| ==>
              OwnOk(cfg, held[q.wq[m][0] := held[q.wq[m][0]] + [m]], q.loc[m := Some(q.wq[m][0])],
                    q.wq[m := q.wq[m][1..]], ys - {m})
  {
    if q.wq[m] != [] && |held| == |tstat| {
      var u := q.wq[m][0];
      assert u in q.wq[m];
      var held1, loc1 := held[u := held[u] + [m]], q.loc[m := Some(u)];
      assert u !in q.wq[m][1..];
      forall t, i | 0 <= t < |held1| && i in held1[t]
        ensures i < |loc1| && loc1[i] == Some(t)
      {
        assert (i == m && t == u) || i in held[t];
      }
      forall i | 0 <= i < |loc1| && loc1[i].Some?
        ensures cfg.IsMtx(i) && loc1[i].value < |held1| && (i !in ys - {m} ==> i in held1[loc1[i].value])
      {
        assert i != m ==> loc1[i] == q.loc[i];
      }
    }
  }

  /** mutex_release keeps every part of the invariant, and settles mutex `m`. */
  lemma HandOverCore(k: K, x: int, ys: set<nat>, m: nat)
    requires Core(k, x, ys) && k.cfg.IsMtx(m)
    requires forall t :: 0 <= t < |k.t.held| ==> m !in k.t.held[t]
    ensures Sane(k)
    ensures k.q.wq[m] != [] ==> k.q.wq[m][0] < |k.t.tstat| && k.t.tstat[k.q.wq[m][0]].Waiting?
    ensures Core(HandOver(k, m), x, ys - {m})
    ensures 0 <= x < |k.t.tstat| ==>
              HandOver(k, m).t.held[x] == k.t.held[x] && HandOver(k, m).t.flag == k.t.flag
  {
    hide Sorted, ClockOk, HandlersOk, PriOk, IdleOk, TmrOk, OwnOk, SemOk, LinksOk, OrderOk, Cfg.Ceil, CalcPri, PriAt;
    hide Period.Ok, EndWait, WithoutWaiter;
    CoreSane(k, x, ys);
    HandOverOwn(k.cfg, k.t.tstat, k.t.held, k.q, x, ys, m);
    if k.q.wq[m] != [] {
      var u := k.q.wq[m][0];
      HandOverIsEndWait(k, x, m);
      WaiterPri(k.cfg, k.t, x, u);
      var k1 := Promote(k, u, m);
      PromoteTasks(k.cfg, k.t, x, u, m);
      PromoteOrder(k.cfg, k.t.tstat, k.q, k.t.pri, x, u, m, k1.t.pri[u]);
      EndWaitFields(k1, u, E_OK);
      SortedReady(k.cfg, k1.q, k1.t.pri);
      EndWaitLinks(k1.t.tstat, k1.q.rq, k1.q.wq, k1.t.pri, x, u);
      EndWaitOrder(k.cfg, k1.t.tstat, k1.q.rq, k1.q.wq, k1.t.pri, u);
      EndWaitTasks(k.cfg, k1.t, k1.e, x, u, E_OK);
      PoppedQueue(k.t.tstat, k.q.wq, u, m);
      JoinOrder(k.cfg, k.q.rq, HandOver(k, m).q.rq, HandOver(k, m).q.wq, k1.t.pri);
      ShorterQueues(k.cfg, k.q.cnt, k.q.wq, m);
    }
  }

  lemma WaiterPri(cfg: Cfg, t: Tasks, x: int, u: nat)
    requires PriOk(cfg, t, x) && u < |t.tstat| && u != x
    ensures PriAt(cfg, t, u)
  {
  }

  lemma SortedReady(cfg: Cfg, q: Queues, pri: seq<nat>)
    requires OrderOk(cfg, q.rq, q.wq, pri)
    ensures Sorted(q.rq, pri)
  {
  }

  lemma JoinOrder(cfg: Cfg, rq: seq<nat>, rq1: seq<nat>, wq: seq<seq<nat>>, pri: seq<nat>)
    requires OrderOk(cfg, rq, wq, pri) && Sorted(rq1, pri)
    ensures OrderOk(cfg, rq1, wq, pri)
  {
  }

  lemma PoppedQueue(tstat: seq<TStat>, wq: seq<seq<nat>>, u: nat, m: nat)
    requires u < |tstat| && IsOn(tstat[u], m) && m < |wq| && wq[m] != [] && wq[m][0] == u
    ensures WithoutWaiter(tstat, wq, u) == wq[m := wq[m][1..]]
  {
  }

  lemma ShorterQueues(cfg: Cfg, cnt: seq<nat>, wq: seq<seq<nat>>, m: nat)
    requires SemOk(cfg, cnt, wq) && m < |wq| && wq[m] != []
    ensures SemOk(cfg, cnt, wq[m := wq[m][1..]])
  {
  }
}
