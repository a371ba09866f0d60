/** The kernel as a state machine on values: what every service call, time event and
    interrupt does, without the caches the code keeps.

    The ready structures are one list `rq` in precedence order, whose head is the task
    to run; timers are a map from event blocks to unbounded times; the need for a
    dispatch is read off the state instead of being handed around as a flag.  The
    control blocks are kept as one sequence per field. */
module KernelSpec {
  import opened Basics
  import opened OrderedList
  import opened TimeEvent

  const TNUM_TPRI: nat := 16
  const TMO_POL: int := 0
  const TMO_FEVR: int := -1

  // Timeouts are 32-bit signed numbers of milliseconds.
  type Tmo = x: int | -0x8000_0000 <= x <= 0x7fff_ffff

  datatype Er = E_OK | E_PAR | E_CTX | E_ILUSE | E_OBJ | E_QOVR | E_RLWAI | E_TMOUT | E_DLT

  // What a call answers: an error code now, or nothing until the caller is woken.
  datatype Ret = Ret(er: Er) | Blocks

  datatype Factor = WaitDly | WaitSlp | WaitObj(o: nat)

  datatype TStat = Dormant | Runnable | Suspended | Waiting(fac: Factor, susp: bool)

  // The wait-information block is a union: the timer field while waiting, the error code afterwards.
  datatype Winfo = NoTimer | Timer | Wercd(er: Er)

  datatype Flags = Flags(actque: bool, wupque: bool, waifbd: bool)

  datatype ObjAttr =
    | MtxAttr(tpri: bool, ceil: Option<nat>)
    | SemAttr(tpri: bool, max: nat, init: nat)
    | QueAttr(tpri: bool)                     // a wait queue of any other object

  datatype CycAttr = CycAttr(cyctim: nat, cycphs: nat)

  /** The configuration tables, which never change. */
  datatype Cfg = Cfg(ipri: seq<nat>, minpri: seq<nat>, obj: seq<ObjAttr>, cyc: seq<CycAttr>, nalm: nat, per: Period) {
    function Ceil(o: nat): Option<nat> {
      if o < |obj| && obj[o].MtxAttr? then obj[o].ceil else None
    }

    predicate IsMtx(o: nat) {
      o < |obj| && obj[o].MtxAttr?
    }

    predicate IsSem(o: nat) {
      o < |obj| && obj[o].SemAttr?
    }

    predicate IsQue(o: nat) {
      o < |obj| && obj[o].QueAttr?
    }
  }

  // The task control blocks, one sequence per field.
  datatype Tasks = Tasks(tstat: seq<TStat>, bpri: seq<nat>, pri: seq<nat>, held: seq<seq<nat>>,
                         winfo: seq<Winfo>, flag: seq<Flags>)

  // The ready list, the wait queues, the owners of the mutexes and the semaphore counts.
  datatype Queues = Queues(rq: seq<nat>, wq: seq<seq<nat>>, loc: seq<Option<nat>>, cnt: seq<nat>)

  // The registered time events, the cyclic and alarm handlers, and the clock.
  datatype Timers = Timers(tmr: map<Blk, int>, cycsta: seq<bool>, evttim: seq<int>, almsta: seq<bool>,
                           n: nat, ticking: bool)

  // What runs, and whether it may be preempted.
  datatype Context = Context(run: Option<nat>, reqflg: bool, ipmflg: bool, disdsp: bool, inint: bool)

  datatype K = K(cfg: Cfg, t: Tasks, q: Queues, e: Timers, c: Context)

  /** The lengths of the tables fit the configuration, and all numbers are in range. */
  predicate Shape(k: K) {
    && var c := k.cfg;
    && var nt := |c.ipri|;
    && |c.minpri| == nt
    && |k.t.tstat| == |k.t.bpri| == |k.t.pri| == |k.t.held| == |k.t.winfo| == |k.t.flag| == nt
    && |k.q.wq| == |k.q.loc| == |k.q.cnt| == |c.obj|
    && |k.e.cycsta| == |k.e.evttim| == |c.cyc|
    && |k.e.almsta| == c.nalm
    && (k.c.run.Some? ==> k.c.run.value < nt)
    && (forall t {:trigger k.t.pri[t]} :: 0 <= t < nt ==> k.t.pri[t] < TNUM_TPRI)
    && (forall t {:trigger k.t.bpri[t]} :: 0 <= t < nt ==> k.t.bpri[t] < TNUM_TPRI)
  }

  ghost predicate CeilOk(c: Cfg) {
    forall o {:trigger c.Ceil(o)} :: c.Ceil(o).Some? ==> c.Ceil(o).value < TNUM_TPRI
  }

  ghost predicate CfgOk(c: Cfg) {
    && c.per.Ok() && |c.minpri| == |c.ipri|
    && (forall t {:trigger c.ipri[t]} :: 0 <= t < |c.ipri| ==> c.ipri[t] < TNUM_TPRI)
    && CeilOk(c)
    && (forall o {:trigger c.obj[o]} :: 0 <= o < |c.obj| && c.obj[o].SemAttr? ==> c.obj[o].init <= c.obj[o].max)
    && (forall i {:trigger c.cyc[i]} :: 0 <= i < |c.cyc| ==>
         0 < c.cyc[i].cyctim <= TMAX_RELTIM && c.cyc[i].cycphs <= TMAX_RELTIM)
  }

  // ----- What is derived ----------------------------------------------------

  /** The task of highest precedence. */
  function Sched(k: K): Option<nat> {
    if k.q.rq == [] then None else Some(k.q.rq[0])
  }

  /** Dispatching is possible. */
  predicate Dsp(k: K) {
    k.c.ipmflg && !k.c.disdsp
  }

  ghost function Cur(k: K): int
    requires k.cfg.per.Ok()
  {
    k.cfg.per.Floor(k.e.n)
  }

  ghost function Base(k: K): int
    requires k.cfg.per.Ok()
  {
    k.cfg.per.Ceil(k.e.n + 1)
  }

  predicate WaitsOn(k: K, t: nat, o: nat) {
    t < |k.t.tstat| && k.t.tstat[t].Waiting? && k.t.tstat[t].fac == WaitObj(o)
  }

  /** The higher of a base priority and the ceilings of a list of mutexes. */
  function CalcPri(c: Cfg, held: seq<nat>, b: nat): (p: nat)
    ensures p <= b
    ensures forall o {:trigger c.Ceil(o)} :: o in held && c.Ceil(o).Some? ==> p <= c.Ceil(o).value
    ensures p == b || exists o :: o in held && c.Ceil(o) == Some(p)
    decreases |held|
  {
    if held == [] then b
    else
      var rest := CalcPri(c, held[1..], b);
      match c.Ceil(held[0])
      case Some(x) => assert held[0] in held; if x < rest then x else rest
      case None => rest
  }

  /** Some mutex of the list has a ceiling. */
  predicate HasCeil(c: Cfg, held: seq<nat>) {
    exists o :: o in held && c.Ceil(o).Some?
  }

  // ----- Queues -------------------------------------------------------------

  function MakeRunnable(k: K, t: nat): K {
    k.(q := k.q.(rq := InsertLast(k.q.rq, k.t.pri, t)))
  }

  function MakeNonRunnable(k: K, t: nat): K {
    k.(q := k.q.(rq := Remove(k.q.rq, t)))
  }

  function Activate(k: K, t: nat): K
    requires t < |k.t.tstat|
  {
    MakeRunnable(k.(t := k.t.(tstat := k.t.tstat[t := Runnable])), t)
  }

  /** make_non_wait. */
  function Wake(k: K, t: nat): K
    requires t < |k.t.tstat| && k.t.tstat[t].Waiting?
  {
    if k.t.tstat[t].susp then k.(t := k.t.(tstat := k.t.tstat[t := Suspended])) else Activate(k, t)
  }

  /** wait_dequeue_wobj. */
  function Unlink(k: K, t: nat): K
    requires t < |k.t.tstat|
  {
    match k.t.tstat[t]
    case Waiting(WaitObj(o), _) => if o < |k.q.wq| then k.(q := k.q.(wq := k.q.wq[o := Remove(k.q.wq[o], t)])) else k
    case _ => k
  }

  /** wait_dequeue_tmevtb. */
  function Disarm(k: K, t: nat): K {
    k.(e := k.e.(tmr := k.e.tmr - {Tsk(t)}))
  }

  /** A waiting task leaves its queue and its timer and gets the error code `er`. */
  function EndWait(k: K, t: nat, er: Er): K
    requires t < |k.t.tstat| == |k.t.winfo| && k.t.tstat[t].Waiting?
  {
    var k1 := Disarm(Unlink(k, t), t);
    Wake(k1.(t := k1.t.(winfo := k1.t.winfo[t := Wercd(er)])), t)
  }

  /** The first waiter of object `o` leaves queue and timer; it is not yet woken. */
  function Pop(k: K, o: nat, er: Er): K
    requires o < |k.q.wq| && k.q.wq[o] != [] && k.q.wq[o][0] < |k.t.winfo|
  {
    var u := k.q.wq[o][0];
    k.(q := k.q.(wq := k.q.wq[o := k.q.wq[o][1..]]),
       e := k.e.(tmr := k.e.tmr - {Tsk(u)}),
       t := k.t.(winfo := k.t.winfo[u := Wercd(er)]))
  }

  function PopWake(k: K, o: nat, er: Er): K
    requires o < |k.q.wq| && k.q.wq[o] != []
    requires k.q.wq[o][0] < |k.t.winfo| == |k.t.tstat| && k.t.tstat[k.q.wq[o][0]].Waiting?
  {
    Wake(Pop(k, o, er), k.q.wq[o][0])
  }

  /** wobj_queue_insert: by arrival or by priority. */
  function Enqueue(k: K, o: nat, t: nat): seq<nat>
    requires o < |k.q.wq| == |k.cfg.obj|
  {
    if k.cfg.obj[o].tpri then InsertLast(k.q.wq[o], k.t.pri, t) else k.q.wq[o] + [t]
  }

  /** The running task starts to wait, with a timer if `arm` gives a time. */
  ghost function Block(k: K, r: nat, fac: Factor, arm: Option<nat>): K
    requires Shape(k) && k.cfg.per.Ok() && r < |k.t.tstat| && (fac.WaitObj? ==> fac.o < |k.q.wq|)
  {
    k.(t := k.t.(tstat := k.t.tstat[r := Waiting(fac, false)],
                 winfo := k.t.winfo[r := if arm.Some? then Timer else NoTimer]),
       q := k.q.(rq := Remove(k.q.rq, r),
                 wq := if fac.WaitObj? then k.q.wq[fac.o := Enqueue(k, fac.o, r)] else k.q.wq),
       e := k.e.(tmr := if arm.Some? then k.e.tmr[Tsk(r) := Base(k) + arm.value] else k.e.tmr))
  }

  function ArmOf(tmo: Tmo): Option<nat> {
    if tmo > 0 then Some(tmo) else None
  }

  /** change_priority. */
  function ChangePriority(k: K, t: nat, p: nat, mtxmode: bool): K
    requires Shape(k) && t < |k.t.tstat|
  {
    var k1 := k.(t := k.t.(pri := k.t.pri[t := p]));
    match k.t.tstat[t]
    case Runnable =>
      var q := Remove(k.q.rq, t);
      k1.(q := k.q.(rq := if mtxmode then InsertFirst(q, k1.t.pri, t) else InsertLast(q, k1.t.pri, t)))
    case Waiting(WaitObj(o), _) =>
      if o < |k.q.wq| && k.cfg.obj[o].tpri then
        k1.(q := k.q.(wq := k.q.wq[o := InsertLast(Remove(k.q.wq[o], t), k1.t.pri, t)]))
      else k1
    case _ => k1
  }

  // ----- Mutexes ------------------------------------------------------------

  function Acquire(k: K, t: nat, m: nat): K
    requires Shape(k) && t < |k.t.tstat| && m < |k.q.wq|
  {
    var k1 := k.(q := k.q.(loc := k.q.loc[m := Some(t)]), t := k.t.(held := k.t.held[t := [m] + k.t.held[t]]));
    match k.cfg.Ceil(m)
    case Some(c) => if c < k.t.pri[t] then ChangePriority(k1, t, c, true) else k1
    case None => k1
  }

  function DropPri(k: K, t: nat, lost: nat): K
    requires Shape(k) && t < |k.t.tstat|
  {
    var p := CalcPri(k.cfg, k.t.held[t], k.t.bpri[t]);
    if lost == k.t.pri[t] && p != k.t.pri[t] then ChangePriority(k, t, p, true) else k
  }

  /** mutex_release: mutex `m` becomes free or goes to its first waiter. */
  function HandOver(k: K, m: nat): K
    requires Shape(k) && m < |k.q.wq|
    requires k.q.wq[m] != [] ==> k.q.wq[m][0] < |k.t.tstat| && k.t.tstat[k.q.wq[m][0]].Waiting?
  {
    if k.q.wq[m] == [] then k.(q := k.q.(loc := k.q.loc[m := None]))
    else
      var u := k.q.wq[m][0];
      var k1 := Pop(k, m, E_OK);
      var p := match k.cfg.Ceil(m) case Some(c) => if c < k.t.pri[u] then c else k.t.pri[u] case None => k.t.pri[u];
      Wake(k1.(q := k1.q.(loc := k1.q.loc[m := Some(u)]),
               t := k1.t.(held := k1.t.held[u := k1.t.held[u] + [m]], pri := k1.t.pri[u := p])), u)
  }

  /** The tasks in a wait queue wait on its object, and each is there once. */
  predicate WqOk(k: K) {
    forall o {:trigger k.q.wq[o]} :: 0 <= o < |k.q.wq| ==>
      && NoDup(k.q.wq[o])
      && forall t :: t in k.q.wq[o] ==> WaitsOn(k, t, o)
  }

  lemma PopWakeOk(k: K, o: nat, er: Er)
    requires Shape(k) && WqOk(k) && o < |k.q.wq| && k.q.wq[o] != []
    ensures k.q.wq[o][0] in k.q.wq[o] && k.q.wq[o][0] < |k.t.tstat| && k.t.tstat[k.q.wq[o][0]].Waiting?
    ensures Shape(PopWake(k, o, er)) && WqOk(PopWake(k, o, er))
    ensures PopWake(k, o, er).q.wq == k.q.wq[o := k.q.wq[o][1..]]
  {
    var u := k.q.wq[o][0];
    assert u in k.q.wq[o] && WaitsOn(k, u, o);
    var k1 := PopWake(k, o, er);
    forall p | 0 <= p < |k1.q.wq|
      ensures NoDup(k1.q.wq[p]) && forall t :: t in k1.q.wq[p] ==> WaitsOn(k1, t, p)
    {
      assert u in k.q.wq[o];
      forall t | t in k1.q.wq[p]
        ensures WaitsOn(k1, t, p)
      {
        assert t in k.q.wq[p];
      }
    }
  }

  lemma HandOverOk(k: K, m: nat)
    requires Shape(k) && WqOk(k) && CeilOk(k.cfg) && m < |k.q.wq|
    ensures k.q.wq[m] != [] ==> k.q.wq[m][0] < |k.t.tstat| && k.t.tstat[k.q.wq[m][0]].Waiting?
    ensures Shape(HandOver(k, m)) && WqOk(HandOver(k, m)) && HandOver(k, m).cfg == k.cfg
  {
    if k.q.wq[m] != [] {
      PopWakeOk(k, m, E_OK);
      var k0 := PopWake(k, m, E_OK);
      var k1 := HandOver(k, m);
      assert k1.q.wq == k0.q.wq && k1.t.tstat == k0.t.tstat;
      forall p | 0 <= p < |k1.q.wq|
        ensures NoDup(k1.q.wq[p]) && forall t :: t in k1.q.wq[p] ==> WaitsOn(k1, t, p)
      {
        assert forall t :: t in k0.q.wq[p] ==> WaitsOn(k0, t, p);
      }
    }
  }

  /** mutex_release for each mutex of a list. */
  ghost function ReleaseList(k: K, ms: seq<nat>): K
    requires Shape(k) && WqOk(k)
    requires CeilOk(k.cfg) && forall m :: m in ms ==> m < |k.cfg.obj|
    decreases |ms|
  {
    if ms == [] then k
    else
      assert ms[0] in ms && forall m :: m in ms[1..] ==> m in ms;
      HandOverOk(k, ms[0]);
      ReleaseList(HandOver(k, ms[0]), ms[1..])
  }

  /** init_wait_queue: every waiter of object `o` is woken with E_DLT. */
  function Drain(k: K, o: nat): K
    requires Shape(k) && WqOk(k) && o < |k.q.wq|
    decreases if o < |k.q.wq| then |k.q.wq[o]| else 0
  {
    if k.q.wq[o] == [] then k
    else
      PopWakeOk(k, o, E_DLT);
      Drain(PopWake(k, o, E_DLT), o)
  }

  // ----- The calls ----------------------------------------------------------

  /** The service calls, with the arguments that pass the identifier checks. */
  datatype Call =
    | ActTsk(t: nat)
    | ExtTsk
    | TerTsk(t: nat)
    | ChgPri(t: nat, tskpri: Option<nat>)     // None: back to the initial priority
    | SlpTsk(tmo: Tmo)
    | WupTsk(t: nat)
    | RelWai(t: nat)
    | SusTsk(t: nat)
    | RsmTsk(t: nat)
    | DlyTsk(d: nat)
    | DisWai(t: nat, texmask: bool)
    | EnaWai(t: nat)
    | LocMtx(m: nat, tmo: Tmo)
    | PlocMtx(m: nat)
    | UnlMtx(m: nat)
    | IniMtx(m: nat)
    | SigSem(o: nat)
    | WaiSem(o: nat, tmo: Tmo)
    | PolSem(o: nat)
    | IniSem(o: nat)
    | WaiQue(o: nat, tmo: Tmo)                // a call that finds it has to wait in queue `o`
    | WakQue(o: nat, ts: seq<nat>)            // a call that wakes tasks `ts` of queue `o`
    | IniQue(o: nat, o2: nat)                 // a call that empties the queues of an object
    | RotRdq(p: Option<nat>)                  // None: the caller's base priority
    | DisDsp
    | EnaDsp
    | ChgIpm(enaall: bool)
    | StaCyc(i: nat)
    | StpCyc(i: nat)
    | StaAlm(i: nat, d: nat)
    | StpAlm(i: nat)

  /** The arguments name existing objects of the right kind. */
  predicate ArgsOk(c: Cfg, call: Call) {
    match call
    case ActTsk(t) => t < |c.ipri|
    case TerTsk(t) => t < |c.ipri|
    case ChgPri(t, _) => t < |c.ipri|
    case WupTsk(t) => t < |c.ipri|
    case RelWai(t) => t < |c.ipri|
    case SusTsk(t) => t < |c.ipri|
    case RsmTsk(t) => t < |c.ipri|
    case DisWai(t, _) => t < |c.ipri|
    case EnaWai(t) => t < |c.ipri|
    case LocMtx(m, _) => c.IsMtx(m)
    case PlocMtx(m) => c.IsMtx(m)
    case UnlMtx(m) => c.IsMtx(m)
    case IniMtx(m) => c.IsMtx(m)
    case SigSem(o) => c.IsSem(o)
    case WaiSem(o, _) => c.IsSem(o)
    case PolSem(o) => c.IsSem(o)
    case IniSem(o) => c.IsSem(o)
    case WaiQue(o, _) => c.IsQue(o)
    case WakQue(o, _) => c.IsQue(o)
    case IniQue(o, o2) => c.IsQue(o) && c.IsQue(o2)
    case StaCyc(i) => i < |c.cyc|
    case StpCyc(i) => i < |c.cyc|
    case StaAlm(i, _) => i < c.nalm
    case StpAlm(i) => i < c.nalm
    case _ => true
  }

  /** The calls that interrupt handlers may make. */
  predicate FromInterrupt(call: Call) {
    match call
    case ActTsk(_) => true
    case WupTsk(_) => true
    case RelWai(_) => true
    case DisWai(_, _) => true
    case EnaWai(_) => true
    case SigSem(_) => true
    case WakQue(_, _) => true
    case RotRdq(p) => p.Some?
    case StaAlm(_, _) => true
    case StpAlm(_) => true
    case _ => false
  }

  /** Held mutexes are in the table. */
  predicate HeldOk(k: K) {
    forall t {:trigger k.t.held[t]} :: 0 <= t < |k.t.held| ==> forall m :: m in k.t.held[t] ==> k.cfg.IsMtx(m)
  }

  // What the calls rely on: the tables fit and the wait queues hold waiting tasks.
  ghost predicate Sane(k: K) {
    CfgOk(k.cfg) && Shape(k) && WqOk(k) && HeldOk(k)
  }

  function SetFlag(k: K, t: nat, f: Flags): K
    requires Shape(k) && t < |k.t.tstat|
  {
    k.(t := k.t.(flag := k.t.flag[t := f]))
  }

  function DoActTsk(k: K, t: nat): (K, Ret)
    requires Shape(k) && t < |k.t.tstat|
  {
    if k.t.tstat[t].Dormant? then (Activate(k, t), Ret(E_OK))
    else if !k.t.flag[t].actque then (SetFlag(k, t, k.t.flag[t].(actque := true)), Ret(E_OK))
    else (k, Ret(E_QOVR))
  }

  function SetTstat(k: K, t: nat, s: TStat): K
    requires t < |k.t.tstat|
  {
    k.(t := k.t.(tstat := k.t.tstat[t := s]))
  }

  /** make_dormant. */
  function MakeDormant(k: K, t: nat): K
    requires Shape(k) && t < |k.t.tstat|
  {
    k.(t := k.t.(tstat := k.t.tstat[t := Dormant],
                 bpri := k.t.bpri[t := k.cfg.ipri[t]],
                 pri := k.t.pri[t := k.cfg.ipri[t]],
                 flag := k.t.flag[t := Flags(k.t.flag[t].actque, false, false)]))
  }

  /** A terminated task starts again if its activation is queued. */
  function Restart(k: K, t: nat): K
    requires Shape(k) && t < |k.t.tstat|
  {
    if k.t.flag[t].actque then Activate(SetFlag(k, t, k.t.flag[t].(actque := false)), t) else k
  }

  /** mutex_release_all. */
  ghost function ReleaseAll(k: K, t: nat): K
    requires Sane(k) && t < |k.t.tstat|
  {
    ReleaseList(k.(t := k.t.(held := k.t.held[t := []])), k.t.held[t])
  }

  ghost function Terminate(k: K, t: nat): K
    requires Sane(k) && t < |k.t.tstat|
  {
    ReleaseListOk(k.(t := k.t.(held := k.t.held[t := []])), k.t.held[t]);
    Restart(MakeDormant(ReleaseAll(k, t), t), t)
  }

  lemma {:induction false} ReleaseListOk(k: K, ms: seq<nat>)
    requires Shape(k) && WqOk(k) && CeilOk(k.cfg)
    requires forall m :: m in ms ==> m < |k.cfg.obj|
    ensures var k1 := ReleaseList(k, ms); Shape(k1) && WqOk(k1) && k1.cfg == k.cfg
    decreases |ms|
  {
    if ms != [] {
      assert ms[0] in ms && forall m :: m in ms[1..] ==> m in ms;
      HandOverOk(k, ms[0]);
      ReleaseListOk(HandOver(k, ms[0]), ms[1..]);
    }
  }

  lemma {:induction false} DrainOk(k: K, o: nat)
    requires Shape(k) && WqOk(k) && o < |k.q.wq|
    ensures var k1 := Drain(k, o); Shape(k1) && WqOk(k1) && k1.cfg == k.cfg && k1.q.wq == k.q.wq[o := []]
    ensures var k1 := Drain(k, o); k1.t.held == k.t.held && k1.t.bpri == k.t.bpri && k1.t.pri == k.t.pri
    ensures var k1 := Drain(k, o); k1.q.loc == k.q.loc && k1.q.cnt == k.q.cnt && k1.c == k.c
    decreases if o < |k.q.wq| then |k.q.wq[o]| else 0
  {
    if k.q.wq[o] != [] {
      PopWakeOk(k, o, E_DLT);
      DrainOk(PopWake(k, o, E_DLT), o);
    }
  }

  /** The part of ter_tsk that takes the task out of whatever queue it is in. */
  function Detach(k: K, t: nat): K
    requires Shape(k) && t < |k.t.tstat|
  {
    match k.t.tstat[t]
    case Runnable => MakeNonRunnable(k, t)
    case Waiting(_, _) => Disarm(Unlink(k, t), t)
    case _ => k
  }

  lemma DetachOk(k: K, t: nat)
    requires Shape(k) && WqOk(k) && t < |k.t.tstat|
    ensures var k1 := Detach(k, t); Shape(k1) && WqOk(k1) && k1.cfg == k.cfg && k1.t == k.t
  {
    var k1 := Detach(k, t);
    forall o | 0 <= o < |k1.q.wq|
      ensures NoDup(k1.q.wq[o]) && forall u :: u in k1.q.wq[o] ==> WaitsOn(k1, u, o)
    {
      RemoveNoDup(k.q.wq[o], t);
      assert forall u :: u in k.q.wq[o] ==> WaitsOn(k, u, o);
    }
  }

  ghost function DoExtTsk(k: K, r: nat): (K, Ret)
    requires Sane(k) && r < |k.t.tstat|
  {
    var k1 := k.(c := k.c.(disdsp := false, ipmflg := true));
    (Terminate(MakeNonRunnable(k1, r), r), Ret(E_OK))
  }

  ghost function DoTerTsk(k: K, r: nat, t: nat): (K, Ret)
    requires Sane(k) && t < |k.t.tstat|
  {
    if t == r then (k, Ret(E_ILUSE))
    else if k.t.tstat[t].Dormant? then (k, Ret(E_OBJ))
    else
      DetachOk(k, t);
      (Terminate(Detach(k, t), t), Ret(E_OK))
  }

  /** mutex_check_ceilpri: no held or awaited ceiling is above the base priority `b`. */
  predicate CheckCeil(k: K, t: nat, b: nat)
    requires Shape(k) && t < |k.t.tstat|
  {
    && (forall o :: o in k.t.held[t] && k.cfg.Ceil(o).Some? ==> k.cfg.Ceil(o).value <= b)
    && (k.t.tstat[t].Waiting? && k.t.tstat[t].fac.WaitObj? && k.cfg.Ceil(k.t.tstat[t].fac.o).Some? ==>
          k.cfg.Ceil(k.t.tstat[t].fac.o).value <= b)
  }

  ghost function DoChgPri(k: K, r: nat, t: nat, tskpri: Option<nat>): (K, Ret)
    requires Sane(k) && t < |k.t.tstat| && r < |k.t.tstat|
  {
    var b := if tskpri.Some? then tskpri.value else k.cfg.ipri[t];
    if b >= TNUM_TPRI then (k, Ret(E_PAR))
    else if k.t.tstat[t].Dormant? then (k, Ret(E_OBJ))
    else if b < k.cfg.minpri[r] then (k, Ret(E_ILUSE))
    else if !CheckCeil(k, t, b) then (k, Ret(E_ILUSE))
    else
      var k1 := k.(t := k.t.(bpri := k.t.bpri[t := b]));
      if !HasCeil(k.cfg, k.t.held[t]) then (ChangePriority(k1, t, b, false), Ret(E_OK))
      else (k1, Ret(E_OK))
  }

  ghost function DoSlpTsk(k: K, r: nat, tmo: Tmo): (K, Ret)
    requires Sane(k) && r < |k.t.tstat|
  {
    if !Dsp(k) then (k, Ret(E_CTX))
    else if tmo < TMO_FEVR then (k, Ret(E_PAR))
    else if k.t.flag[r].wupque then (SetFlag(k, r, k.t.flag[r].(wupque := false)), Ret(E_OK))
    else if tmo == TMO_POL then (k, Ret(E_TMOUT))
    else if k.t.flag[r].waifbd then (k, Ret(E_RLWAI))
    else (Block(k, r, WaitSlp, ArmOf(tmo)), Blocks)
  }

  ghost function DoDlyTsk(k: K, r: nat, d: nat): (K, Ret)
    requires Sane(k) && r < |k.t.tstat|
  {
    if !Dsp(k) then (k, Ret(E_CTX))
    else if d > TMAX_RELTIM then (k, Ret(E_PAR))
    else if k.t.flag[r].waifbd then (k, Ret(E_RLWAI))
    else (Block(k, r, WaitDly, Some(d)), Blocks)
  }

  function DoWupTsk(k: K, t: nat): (K, Ret)
    requires Shape(k) && t < |k.t.tstat|
  {
    var s := k.t.tstat[t];
    if s.Dormant? then (k, Ret(E_OBJ))
    else if s.Waiting? && s.fac.WaitSlp? then (EndWait(k, t, E_OK), Ret(E_OK))
    else if !k.t.flag[t].wupque then (SetFlag(k, t, k.t.flag[t].(wupque := true)), Ret(E_OK))
    else (k, Ret(E_QOVR))
  }

  function DoRelWai(k: K, t: nat): (K, Ret)
    requires Shape(k) && t < |k.t.tstat|
  {
    if k.t.tstat[t].Waiting? then (EndWait(k, t, E_RLWAI), Ret(E_OK)) else (k, Ret(E_OBJ))
  }

  function DoSusTsk(k: K, r: nat, t: nat): (K, Ret)
    requires Shape(k) && t < |k.t.tstat|
  {
    if t == r && !Dsp(k) then (k, Ret(E_CTX))
    else
      match k.t.tstat[t]
      case Dormant => (k, Ret(E_OBJ))
      case Runnable => (MakeNonRunnable(SetTstat(k, t, Suspended), t), Ret(E_OK))
      case Suspended => (k, Ret(E_QOVR))
      case Waiting(f, susp) =>
        if susp then (k, Ret(E_QOVR)) else (SetTstat(k, t, Waiting(f, true)), Ret(E_OK))
  }

  function DoRsmTsk(k: K, t: nat): (K, Ret)
    requires Shape(k) && t < |k.t.tstat|
  {
    match k.t.tstat[t]
    case Suspended => (Activate(k, t), Ret(E_OK))
    case Waiting(f, true) => (SetTstat(k, t, Waiting(f, false)), Ret(E_OK))
    case _ => (k, Ret(E_OBJ))
  }

  /** `texmask`: the task is in the task-exception mask state, which is not modelled. */
  function DoDisWai(k: K, t: nat, texmask: bool): (K, Ret)
    requires Shape(k) && t < |k.t.tstat|
  {
    if k.t.tstat[t].Dormant? then (k, Ret(E_OBJ))
    else if k.t.flag[t].waifbd then (k, Ret(E_QOVR))
    else if texmask then (SetFlag(k, t, k.t.flag[t].(waifbd := true)), Ret(E_OK))
    else (k, Ret(E_OBJ))
  }

  function DoEnaWai(k: K, t: nat): (K, Ret)
    requires Shape(k) && t < |k.t.tstat|
  {
    if k.t.tstat[t].Dormant? || !k.t.flag[t].waifbd then (k, Ret(E_OBJ))
    else (SetFlag(k, t, k.t.flag[t].(waifbd := false)), Ret(E_OK))
  }

  /** loc_mtx (wait forever) and tloc_mtx. */
  ghost function DoLocMtx(k: K, r: nat, m: nat, tmo: Tmo): (K, Ret)
    requires Sane(k) && r < |k.t.tstat| && m < |k.q.wq|
  {
    if !Dsp(k) then (k, Ret(E_CTX))
    else if tmo < TMO_FEVR then (k, Ret(E_PAR))
    else
      var c := k.cfg.Ceil(m);
      if c.Some? && k.t.bpri[r] < c.value then (k, Ret(E_ILUSE))
      else if k.q.loc[m] == None then (Acquire(k, r, m), Ret(E_OK))
      else if k.q.loc[m] == Some(r) then (k, Ret(E_OBJ))
      else if tmo == TMO_POL then (k, Ret(E_TMOUT))
      else if k.t.flag[r].waifbd then (k, Ret(E_RLWAI))
      else (Block(k, r, WaitObj(m), ArmOf(tmo)), Blocks)
  }

  ghost function DoPlocMtx(k: K, r: nat, m: nat): (K, Ret)
    requires Sane(k) && r < |k.t.tstat| && m < |k.q.wq|
  {
    var c := k.cfg.Ceil(m);
    if c.Some? && k.t.bpri[r] < c.value then (k, Ret(E_ILUSE))
    else if k.q.loc[m] == None then (Acquire(k, r, m), Ret(E_OK))
    else if k.q.loc[m] == Some(r) then (k, Ret(E_OBJ))
    else (k, Ret(E_TMOUT))
  }

  /** The part of unl_mtx and ini_mtx that takes mutex `m` from its owner `t`. */
  function GiveUp(k: K, t: nat, m: nat): K
    requires Shape(k) && t < |k.t.tstat| && m < |k.q.wq|
  {
    var k1 := k.(t := k.t.(held := k.t.held[t := Remove(k.t.held[t], m)]));
    if k.cfg.Ceil(m).Some? then DropPri(k1, t, k.cfg.Ceil(m).value) else k1
  }

  lemma GiveUpOk(k: K, t: nat, m: nat)
    requires Shape(k) && WqOk(k) && t < |k.t.tstat| && m < |k.q.wq|
    ensures var k1 := GiveUp(k, t, m); Shape(k1) && WqOk(k1) && k1.cfg == k.cfg && |k1.q.wq| == |k.q.wq|
  {
    var k0 := k.(t := k.t.(held := k.t.held[t := Remove(k.t.held[t], m)]));
    assert Shape(k0) && WqOk(k0);
    if k.cfg.Ceil(m).Some? && k.cfg.Ceil(m).value == k.t.pri[t] {
      ChangePriorityOk(k0, t, CalcPri(k.cfg, k0.t.held[t], k0.t.bpri[t]), true);
    }
  }

  lemma ChangePriorityOk(k: K, t: nat, p: nat, mtxmode: bool)
    requires Shape(k) && WqOk(k) && t < |k.t.tstat| && p < TNUM_TPRI
    ensures var k1 := ChangePriority(k, t, p, mtxmode); Shape(k1) && WqOk(k1) && k1.cfg == k.cfg
    ensures var k1 := ChangePriority(k, t, p, mtxmode); k1.t == k.t.(pri := k.t.pri[t := p])
  {
    var k1 := ChangePriority(k, t, p, mtxmode);
    forall o | 0 <= o < |k1.q.wq|
      ensures NoDup(k1.q.wq[o]) && forall u :: u in k1.q.wq[o] ==> WaitsOn(k1, u, o)
    {
      assert forall u :: u in k.q.wq[o] ==> WaitsOn(k, u, o);
      RemoveNoDup(k.q.wq[o], t);
      var i := InsertLastSplit(Remove(k.q.wq[o], t), k1.t.pri, t);
      InsertNoDup(Remove(k.q.wq[o], t), i, t);
    }
  }

  ghost function DoUnlMtx(k: K, r: nat, m: nat): (K, Ret)
    requires Sane(k) && r < |k.t.tstat| && m < |k.q.wq|
  {
    if k.q.loc[m] != Some(r) then (k, Ret(E_OBJ))
    else
      GiveUpOk(k, r, m);
      HandOverOk(GiveUp(k, r, m), m);
      (HandOver(GiveUp(k, r, m), m), Ret(E_OK))
  }

  ghost function DoIniMtx(k: K, m: nat): (K, Ret)
    requires Sane(k) && m < |k.q.wq|
  {
    DrainOk(k, m);
    var k1 := Drain(k, m);
    if k.q.loc[m].Some? && k.q.loc[m].value < |k.t.tstat| then
      GiveUpOk(k1, k.q.loc[m].value, m);
      var k2 := GiveUp(k1, k.q.loc[m].value, m);
      (k2.(q := k2.q.(loc := k2.q.loc[m := None])), Ret(E_OK))
    else (k1, Ret(E_OK))
  }

  ghost function DoSigSem(k: K, o: nat): (K, Ret)
    requires Sane(k) && k.cfg.IsSem(o)
  {
    if k.q.wq[o] != [] then
      PopWakeOk(k, o, E_OK);
      (PopWake(k, o, E_OK), Ret(E_OK))
    else if k.q.cnt[o] < k.cfg.obj[o].max then
      (k.(q := k.q.(cnt := k.q.cnt[o := k.q.cnt[o] + 1])), Ret(E_OK))
    else (k, Ret(E_QOVR))
  }

  ghost function DoWaiSem(k: K, r: nat, o: nat, tmo: Tmo): (K, Ret)
    requires Sane(k) && r < |k.t.tstat| && o < |k.q.wq|
  {
    if !Dsp(k) then (k, Ret(E_CTX))
    else if tmo < TMO_FEVR then (k, Ret(E_PAR))
    else if k.q.cnt[o] >= 1 then (k.(q := k.q.(cnt := k.q.cnt[o := k.q.cnt[o] - 1])), Ret(E_OK))
    else if tmo == TMO_POL then (k, Ret(E_TMOUT))
    else if k.t.flag[r].waifbd then (k, Ret(E_RLWAI))
    else (Block(k, r, WaitObj(o), ArmOf(tmo)), Blocks)
  }

  function DoPolSem(k: K, o: nat): (K, Ret)
    requires Shape(k) && o < |k.q.wq|
  {
    if k.q.cnt[o] >= 1 then (k.(q := k.q.(cnt := k.q.cnt[o := k.q.cnt[o] - 1])), Ret(E_OK))
    else (k, Ret(E_TMOUT))
  }

  ghost function DoIniSem(k: K, o: nat): (K, Ret)
    requires Sane(k) && k.cfg.IsSem(o)
  {
    DrainOk(k, o);
    var k1 := Drain(k, o);
    (k1.(q := k1.q.(cnt := k1.q.cnt[o := k.cfg.obj[o].init])), Ret(E_OK))
  }

  /** The waiting branch of snd_dtq, rcv_dtq, snd_pdq, rcv_pdq, get_mpf and wai_flg, with the
      checks before it and the timed variants. */
  ghost function DoWaiQue(k: K, r: nat, o: nat, tmo: Tmo): (K, Ret)
    requires Sane(k) && r < |k.t.tstat| && o < |k.q.wq|
  {
    if !Dsp(k) then (k, Ret(E_CTX))
    else if tmo < TMO_FEVR then (k, Ret(E_PAR))
    else if tmo == TMO_POL then (k, Ret(E_TMOUT))
    else if k.t.flag[r].waifbd then (k, Ret(E_RLWAI))
    else (Block(k, r, WaitObj(o), ArmOf(tmo)), Blocks)
  }

  /** queue_delete and wait_complete for each of some tasks that wait in queue `o`: what sending,
      receiving, rel_mpf and set_flg do to the tasks that they serve. */
  function WakeAll(k: K, o: nat, ts: seq<nat>): K
    requires |k.t.tstat| == |k.t.winfo|
    decreases |ts|
  {
    if ts == [] then k
    else if WaitsOn(k, ts[0], o) then WakeAll(EndWait(k, ts[0], E_OK), o, ts[1..])
    else WakeAll(k, o, ts[1..])
  }

  /** ini_dtq, ini_pdq, ini_mpf and ini_flg: the waiting tasks of one queue, or of two. */
  ghost function DoIniQue(k: K, o: nat, o2: nat): (K, Ret)
    requires Sane(k) && o < |k.q.wq| && o2 < |k.q.wq|
  {
    DrainOk(k, o);
    (Drain(Drain(k, o), o2), Ret(E_OK))
  }

  /** The first task of priority `p` in the ready list. */
  function FirstOf(q: seq<nat>, pri: seq<nat>, p: nat): (t: Option<nat>)
    ensures t.Some? ==> t.value in q && Pri(pri, t.value) == p
    ensures t == None ==> forall x :: x in q ==> Pri(pri, x) != p
  {
    if q == [] then None else if Pri(pri, q[0]) == p then Some(q[0]) else FirstOf(q[1..], pri, p)
  }

  /** rotate_ready_queue: the first task of priority `p` goes behind the others. */
  function Rotate(k: K, p: nat): K {
    match FirstOf(k.q.rq, k.t.pri, p)
    case None => k
    case Some(t) => MakeRunnable(MakeNonRunnable(k, t), t)
  }

  function DoRotRdq(k: K, p: nat): (K, Ret) {
    if p >= TNUM_TPRI then (k, Ret(E_PAR)) else (Rotate(k, p), Ret(E_OK))
  }

  ghost function DoStaCyc(k: K, i: nat): (K, Ret)
    requires Sane(k) && i < |k.cfg.cyc|
  {
    var t := Base(k) + k.cfg.cyc[i].cycphs;
    (k.(e := k.e.(cycsta := k.e.cycsta[i := true], evttim := k.e.evttim[i := t], tmr := k.e.tmr[Cyc(i) := t])),
     Ret(E_OK))
  }

  function DoStpCyc(k: K, i: nat): (K, Ret)
    requires Shape(k) && i < |k.cfg.cyc|
  {
    (if k.e.cycsta[i] then k.(e := k.e.(cycsta := k.e.cycsta[i := false], tmr := k.e.tmr - {Cyc(i)})) else k,
     Ret(E_OK))
  }

  ghost function DoStaAlm(k: K, i: nat, d: nat): (K, Ret)
    requires Sane(k) && i < k.cfg.nalm
  {
    if d > TMAX_RELTIM then (k, Ret(E_PAR))
    else (k.(e := k.e.(almsta := k.e.almsta[i := true], tmr := k.e.tmr[Alm(i) := Base(k) + d])), Ret(E_OK))
  }

  function DoStpAlm(k: K, i: nat): (K, Ret)
    requires Shape(k) && i < k.cfg.nalm
  {
    (if k.e.almsta[i] then k.(e := k.e.(almsta := k.e.almsta[i := false], tmr := k.e.tmr - {Alm(i)})) else k,
     Ret(E_OK))
  }

  /** A call, up to the dispatch at its end; `r` is the running task if a task calls. */
  ghost function DoCall(k: K, r: nat, call: Call): (K, Ret)
    requires Sane(k) && ArgsOk(k.cfg, call) && (!FromInterrupt(call) ==> r < |k.t.tstat|)
  {
    match call
    case ActTsk(t) => DoActTsk(k, t)
    case ExtTsk => DoExtTsk(k, r)
    case TerTsk(t) => DoTerTsk(k, r, t)
    case ChgPri(t, p) => DoChgPri(k, r, t, p)
    case SlpTsk(tmo) => DoSlpTsk(k, r, tmo)
    case WupTsk(t) => DoWupTsk(k, t)
    case RelWai(t) => DoRelWai(k, t)
    case SusTsk(t) => DoSusTsk(k, r, t)
    case RsmTsk(t) => DoRsmTsk(k, t)
    case DlyTsk(d) => DoDlyTsk(k, r, d)
    case DisWai(t, x) => DoDisWai(k, t, x)
    case EnaWai(t) => DoEnaWai(k, t)
    case LocMtx(m, tmo) => DoLocMtx(k, r, m, tmo)
    case PlocMtx(m) => DoPlocMtx(k, r, m)
    case UnlMtx(m) => DoUnlMtx(k, r, m)
    case IniMtx(m) => DoIniMtx(k, m)
    case SigSem(o) => DoSigSem(k, o)
    case WaiSem(o, tmo) => DoWaiSem(k, r, o, tmo)
    case PolSem(o) => DoPolSem(k, o)
    case IniSem(o) => DoIniSem(k, o)
    case WaiQue(o, tmo) => DoWaiQue(k, r, o, tmo)
    case WakQue(o, ts) => (WakeAll(k, o, ts), Ret(E_OK))
    case IniQue(o, o2) => DoIniQue(k, o, o2)
    case RotRdq(p) => DoRotRdq(k, if p.Some? then p.value else k.t.bpri[r])
    case DisDsp => (k.(c := k.c.(disdsp := true)), Ret(E_OK))
    case EnaDsp => (k.(c := k.c.(disdsp := false)), Ret(E_OK))
    case ChgIpm(ena) => (k.(c := k.c.(ipmflg := ena)), Ret(E_OK))
    case StaCyc(i) => DoStaCyc(k, i)
    case StpCyc(i) => DoStpCyc(k, i)
    case StaAlm(i, d) => DoStaAlm(k, i, d)
    case StpAlm(i) => DoStpAlm(k, i)
  }

  // ----- Steps --------------------------------------------------------------

  /** The atomic steps of a run: calls from the running task and from interrupt
      handlers, entry and exit of interrupt handling, and the parts of a time tick. */
  datatype Op =
    | Task(call: Call)
    | Intr(call: Call)
    | EnterInt
    | ExitInt
    | TickBegin
    | Fire(b: Blk)
    | TickEnd

  /** At the end of a task's call the highest task runs, if dispatching is possible. */
  function Dispatch(k: K): K {
    k.(c := k.c.(run := if Dsp(k) then Sched(k) else k.c.run))
  }

  /** A handler's call asks for a dispatch if the highest task changed. */
  function Request(k0: K, k: K): K {
    k.(c := k.c.(reqflg := k.c.reqflg || (Dsp(k) && Sched(k) != Sched(k0))))
  }

  /** Block `b` is the event signal_time may take next. */
  ghost predicate IsNext(k: K, b: Blk)
    requires k.cfg.per.Ok()
  {
    b in k.e.tmr && k.e.tmr[b] <= Cur(k) && forall x :: x in k.e.tmr ==> k.e.tmr[b] <= k.e.tmr[x]
  }

  ghost predicate NothingDue(k: K)
    requires k.cfg.per.Ok()
  {
    forall x :: x in k.e.tmr ==> Cur(k) < k.e.tmr[x]
  }

  /** The event of block `b` happens: wait_tmout, wait_tmout_ok, or the part of
      call_cychdr or call_almhdr before the handler. */
  function DoFire(k: K, b: Blk): K
    requires Shape(k) && b in k.e.tmr
    requires match b
             case Tsk(t) => t < |k.t.tstat| && k.t.tstat[t].Waiting?
             case Cyc(i) => i < |k.cfg.cyc|
             case Alm(i) => i < k.cfg.nalm
  {
    match b
    case Tsk(t) => Request(k, EndWait(k, t, if k.t.tstat[t].fac.WaitDly? then E_OK else E_TMOUT))
    case Cyc(i) =>
      var t := k.e.evttim[i] + k.cfg.cyc[i].cyctim;
      k.(e := k.e.(evttim := k.e.evttim[i := t], tmr := k.e.tmr[b := t]))
    case Alm(i) => k.(e := k.e.(almsta := k.e.almsta[i := false], tmr := k.e.tmr - {b}))
  }

  ghost predicate FireOk(k: K, b: Blk)
    requires Shape(k)
  {
    b in k.e.tmr &&
    match b
    case Tsk(t) => t < |k.t.tstat| && k.t.tstat[t].Waiting?
    case Cyc(i) => i < |k.cfg.cyc|
    case Alm(i) => i < k.cfg.nalm
  }

  ghost predicate Enabled(k: K, op: Op) {
    Sane(k) &&
    match op
    case Task(call) => !k.c.inint && k.c.run.Some? && ArgsOk(k.cfg, call)
    case Intr(call) => k.c.inint && FromInterrupt(call) && ArgsOk(k.cfg, call)
    case EnterInt => !k.c.inint
    case ExitInt => k.c.inint && !k.e.ticking
    case TickBegin => k.c.inint && !k.e.ticking
    case Fire(b) => k.c.inint && k.e.ticking && FireOk(k, b) && IsNext(k, b)
    case TickEnd => k.c.inint && k.e.ticking && NothingDue(k)
  }

  ghost function Step(k: K, op: Op): (K, Ret)
    requires Enabled(k, op)
  {
    match op
    case Task(call) =>
      var (k1, ret) := DoCall(k, k.c.run.value, call);
      (Dispatch(k1), ret)
    case Intr(call) =>
      var (k1, ret) := DoCall(k, 0, call);
      (Request(k, k1), ret)
    case EnterInt => (k.(c := k.c.(inint := true)), Ret(E_OK))
    case ExitInt =>
      var k1 := k.(c := k.c.(inint := false, reqflg := false));
      (if k.c.reqflg then Dispatch(k1) else k1, Ret(E_OK))
    case TickBegin => (k.(e := k.e.(n := k.e.n + 1, ticking := true)), Ret(E_OK))
    case Fire(b) => (DoFire(k, b), Ret(E_OK))
    case TickEnd => (k.(e := k.e.(ticking := false)), Ret(E_OK))
  }
}
