/** What the steps leave behind, said about the tables before and after: which tasks have
    ended their waits and with what answer, who has joined a queue and where, and who has
    changed places.  The parts of the calls are measured against this vocabulary here. */
module Effects {
  import opened Basics
  import opened OrderedList
  import opened TimeEvent
  import opened KernelSpec
  import opened KernelInv
  import opened KernelCalls
  import opened Runs

  // ----- The vocabulary -----------------------------------------------------

  /** The task states after the waits of the tasks `vs` have ended. */
  function StatEnd(tstat: seq<TStat>, vs: seq<nat>): seq<TStat> {
    seq(|tstat|, v requires 0 <= v < |tstat| =>
      if v in vs && tstat[v].Waiting? then (if tstat[v].susp then Suspended else Runnable) else tstat[v])
  }

  /** What the tasks find in their wait-information blocks. */
  function InfoEnd(winfo: seq<Winfo>, vs: seq<nat>, er: Er): seq<Winfo> {
    seq(|winfo|, v requires 0 <= v < |winfo| => if v in vs then Wercd(er) else winfo[v])
  }

  /** Those of the tasks `vs` that become ready when their waits end: suspended ones do not. */
  function Woken(tstat: seq<TStat>, vs: seq<nat>): seq<nat> {
    if vs == [] then []
    else (if vs[0] < |tstat| && tstat[vs[0]].Waiting? && !tstat[vs[0]].susp then [vs[0]] else []) + Woken(tstat, vs[1..])
  }

  function TskBlks(vs: seq<nat>): set<Blk> {
    set v | v in vs :: Tsk(v)
  }

  /** The waits of the tasks `vs` end with answer `er`: they leave their queues, in which the
      others keep their order, and their timers are cancelled.  Nothing is said here about the
      ready list, the mutexes and the current priorities. */
  ghost predicate WaitsEnd(k: K, k1: K, vs: seq<nat>, er: Er) {
    && k1.cfg == k.cfg
    && k1.t == k.t.(tstat := StatEnd(k.t.tstat, vs), winfo := InfoEnd(k.t.winfo, vs, er),
                    held := k1.t.held, pri := k1.t.pri)
    && k1.q == k.q.(rq := k1.q.rq, wq := k1.q.wq, loc := k1.q.loc)
    && |k1.q.wq| == |k.q.wq|
    && (forall o {:trigger k1.q.wq[o]} :: 0 <= o < |k.q.wq| ==> k1.q.wq[o] == Without(k.q.wq[o], vs))
    && k1.e == k.e.(tmr := k.e.tmr - TskBlks(vs))
  }

  /** The waits of the tasks `vs` end, and in this order they get ready behind their equals;
      mutexes and priorities stay as they are. */
  ghost predicate Wakes(k: K, k1: K, vs: seq<nat>, er: Er) {
    && WaitsEnd(k, k1, vs, er)
    && k1.t.held == k.t.held && k1.t.pri == k.t.pri && k1.q.loc == k.q.loc
    && LinesUp(k.q.rq, k1.q.rq, k.t.pri, [], Woken(k.t.tstat, vs))
  }

  // ----- Waits that end, one after the other --------------------------------

  lemma WokenOne(tstat: seq<TStat>, v: nat)
    requires v < |tstat| && tstat[v].Waiting?
    ensures Woken(tstat, [v]) == if tstat[v].susp then [] else [v]
  {
    assert [v][1..] == [];
  }

  lemma StatEndOne(tstat: seq<TStat>, winfo: seq<Winfo>, v: nat, er: Er)
    requires v < |tstat| == |winfo| && tstat[v].Waiting?
    ensures StatEnd(tstat, [v]) == tstat[v := AfterWait(tstat[v])]
    ensures InfoEnd(winfo, [v], er) == winfo[v := Wercd(er)]
    ensures TskBlks([v]) == {Tsk(v)}
  {
  }

  /** The end of a wait changes the queue of the object that was waited for. */
  lemma WithoutOne(k: K, v: nat)
    requires WqOk(k) && v < |k.t.tstat|
    ensures |WithoutWaiter(k.t.tstat, k.q.wq, v)| == |k.q.wq|
    ensures forall o :: 0 <= o < |k.q.wq| ==> WithoutWaiter(k.t.tstat, k.q.wq, v)[o] == Without(k.q.wq[o], [v])
  {
    assert [v][1..] == [];
    forall o | 0 <= o < |k.q.wq|
      ensures WithoutWaiter(k.t.tstat, k.q.wq, v)[o] == Without(k.q.wq[o], [v])
    {
      assert v in k.q.wq[o] ==> WaitsOn(k, v, o);
    }
  }

  lemma EndWaitEffect(k: K, t: nat, er: Er)
    requires t < |k.t.tstat| == |k.t.winfo| && k.t.tstat[t].Waiting? && WqOk(k) && Sorted(k.q.rq, k.t.pri)
    ensures Wakes(k, EndWait(k, t, er), [t], er) && EndWait(k, t, er).c == k.c
  {
    hide EndWait, WithoutWaiter, Without, InsertLast, WqOk, Sorted, LinesUp, StatEnd, InfoEnd, TskBlks, Woken;
    EndWaitFields(k, t, er);
    StatEndOne(k.t.tstat, k.t.winfo, t, er);
    WithoutOne(k, t);
    WokenOne(k.t.tstat, t);
    if k.t.tstat[t].susp {
      LinesUpSame(k.q.rq, k.t.pri);
    } else {
      LinesUpLast(k.q.rq, k.t.pri, t);
    }
  }

  lemma {:induction false} WithoutThen(q: seq<nat>, a: seq<nat>, b: seq<nat>)
    ensures Without(Without(q, a), b) == Without(q, a + b)
    decreases |a|
  {
    if a == [] {
      assert a + b == b;
    } else {
      assert (a + b)[1..] == a[1..] + b;
      WithoutThen(Remove(q, a[0]), a[1..], b);
    }
  }

  lemma StatEndThen(tstat: seq<TStat>, winfo: seq<Winfo>, a: seq<nat>, b: seq<nat>, er: Er)
    ensures StatEnd(StatEnd(tstat, a), b) == StatEnd(tstat, a + b)
    ensures InfoEnd(InfoEnd(winfo, a, er), b, er) == InfoEnd(winfo, a + b, er)
    ensures TskBlks(a + b) == TskBlks(a) + TskBlks(b)
  {
  }

  lemma EndsThen(k: K, k1: K, k2: K, a: seq<nat>, b: seq<nat>, er: Er)
    requires WaitsEnd(k, k1, a, er) && WaitsEnd(k1, k2, b, er)
    ensures WaitsEnd(k, k2, a + b, er)
  {
    hide StatEnd, InfoEnd, TskBlks, Without;
    StatEndThen(k.t.tstat, k.t.winfo, a, b, er);
    assert k.e.tmr - TskBlks(a) - TskBlks(b) == k.e.tmr - (TskBlks(a) + TskBlks(b));
    forall o | 0 <= o < |k.q.wq|
      ensures k2.q.wq[o] == Without(k.q.wq[o], a + b)
    {
      WithoutThen(k.q.wq[o], a, b);
      assert k1.q.wq[o] == Without(k.q.wq[o], a);
    }
  }

  lemma {:induction false} WokenConcat(tstat: seq<TStat>, a: seq<nat>, b: seq<nat>)
    ensures Woken(tstat, a + b) == Woken(tstat, a) + Woken(tstat, b)
  {
    if a == [] {
      assert a + b == b;
    } else {
      assert (a + b)[1..] == a[1..] + b;
      WokenConcat(tstat, a[1..], b);
    }
  }

  /** Who becomes ready does not depend on the waits of others that have ended before. */
  lemma {:induction false} WokenLater(tstat: seq<TStat>, a: seq<nat>, b: seq<nat>)
    requires forall v :: v in b ==> v !in a
    ensures Woken(StatEnd(tstat, a), b) == Woken(tstat, b)
  {
    if b != [] {
      assert b[0] in b && forall v :: v in b[1..] ==> v in b;
      WokenLater(tstat, a, b[1..]);
    }
  }

  lemma WakesThen(k: K, k1: K, k2: K, a: seq<nat>, b: seq<nat>, er: Er)
    requires Wakes(k, k1, a, er) && Wakes(k1, k2, b, er)
    requires forall v :: v in b ==> v !in a
    ensures Wakes(k, k2, a + b, er)
  {
    hide LinesUp, WaitsEnd, Woken, StatEnd;
    EndsThen(k, k1, k2, a, b, er);
    WokenLater(k.t.tstat, a, b);
    WokenConcat(k.t.tstat, a, b);
    assert k1.t.tstat == StatEnd(k.t.tstat, a) by { StatOf(k, k1, a, er); }
    LinesUpThen(k.q.rq, k1.q.rq, k2.q.rq, k.t.pri, [], Woken(k.t.tstat, a), [], Woken(k.t.tstat, b));
    var none: seq<nat> := [];
    assert none + none == none;
  }

  lemma StatOf(k: K, k1: K, vs: seq<nat>, er: Er)
    requires WaitsEnd(k, k1, vs, er)
    ensures k1.t.tstat == StatEnd(k.t.tstat, vs)
  {
  }

  lemma NobodyWakes(k: K, er: Er)
    ensures Wakes(k, k, [], er)
  {
    LinesUpSame(k.q.rq, k.t.pri);
    assert StatEnd(k.t.tstat, []) == k.t.tstat && InfoEnd(k.t.winfo, [], er) == k.t.winfo;
    assert k.e.tmr - TskBlks([]) == k.e.tmr;
    assert k.t.(tstat := k.t.tstat, winfo := k.t.winfo) == k.t;
  }

  /** The queues that the end of a wait relies on. */
  lemma CoreOrder(k: K)
    requires Core(k, -1, {})
    ensures Shape(k) && WqOk(k) && Sorted(k.q.rq, k.t.pri) && |k.q.wq| == |k.cfg.obj|
    ensures forall o :: 0 <= o < |k.q.wq| && k.cfg.obj[o].tpri ==> Sorted(k.q.wq[o], k.t.pri)
    ensures LinksOk(k.t.tstat, k.q.rq, k.q.wq, -1)
  {
    hide PriOk, IdleOk, TmrOk, SemOk, ClockOk, CfgOk, OwnOk, LinksOk, WqOk;
    CoreSane(k, -1, {});
  }

  /** init_wait_queue ends the waits of the whole queue, in its order. */
  lemma {:induction false} DrainEffect(k: K, o: nat)
    requires Core(k, -1, {}) && o < |k.q.wq|
    ensures Shape(k) && WqOk(k) && Wakes(k, Drain(k, o), k.q.wq[o], E_DLT)
    decreases if o < |k.q.wq| then |k.q.wq[o]| else 0
  {
    hide Core, EndWait, PopWake, Wakes, LinksOk, Shape, WqOk, Sorted;
    CoreOrder(k);
    ShapeLengths(k);
    var w := k.q.wq[o];
    if w == [] {
      NobodyWakes(k, E_DLT);
    } else {
      PopWakeOk(k, o, E_DLT);
      PopIsEndWait(k, -1, o, E_DLT);
      EndWaitEffect(k, w[0], E_DLT);
      EndWaitCore(k, -1, {}, w[0], E_DLT);
      var k1 := PopWake(k, o, E_DLT);
      DrainEffect(k1, o);
      FirstOnly(k, o);
      WakesThen(k, k1, Drain(k, o), [w[0]], w[1..], E_DLT);
      assert w == [w[0]] + w[1..];
    }
  }

  lemma FirstOnly(k: K, o: nat)
    requires WqOk(k) && o < |k.q.wq| && k.q.wq[o] != []
    ensures k.q.wq[o][0] !in k.q.wq[o][1..]
  {
  }

  lemma ShapeLengths(k: K)
    requires Shape(k)
    ensures |k.t.tstat| == |k.t.winfo| == |k.t.pri| == |k.t.bpri| == |k.t.held| == |k.t.flag| == |k.cfg.ipri|
    ensures |k.q.wq| == |k.q.loc| == |k.q.cnt| == |k.cfg.obj|
  {
  }

  /** Those of the tasks `ts` that wait for object `o` and are not among `done`, each once. */
  function Named(tstat: seq<TStat>, o: nat, ts: seq<nat>, done: set<nat>): seq<nat> {
    if ts == [] then []
    else if ts[0] < |tstat| && IsOn(tstat[ts[0]], o) && ts[0] !in done then
      [ts[0]] + Named(tstat, o, ts[1..], done + {ts[0]})
    else Named(tstat, o, ts[1..], done)
  }

  lemma {:induction false} NamedSame(tstat: seq<TStat>, tstat1: seq<TStat>, o: nat, ts: seq<nat>,
                                     done: set<nat>, done1: set<nat>)
    requires |tstat1| == |tstat|
    requires forall v: nat :: v < |tstat| ==> (IsOn(tstat1[v], o) && v !in done1 <==> IsOn(tstat[v], o) && v !in done)
    ensures Named(tstat1, o, ts, done1) == Named(tstat, o, ts, done)
  {
    if ts != [] {
      var b := ts[0] < |tstat| && IsOn(tstat[ts[0]], o) && ts[0] !in done;
      NamedSame(tstat, tstat1, o, ts[1..], if b then done + {ts[0]} else done, if b then done1 + {ts[0]} else done1);
    }
  }

  lemma {:induction false} NamedNew(tstat: seq<TStat>, o: nat, ts: seq<nat>, done: set<nat>)
    ensures forall v :: v in Named(tstat, o, ts, done) <==> v in ts && v < |tstat| && IsOn(tstat[v], o) && v !in done
  {
    if ts != [] {
      NamedNew(tstat, o, ts[1..], done);
      NamedNew(tstat, o, ts[1..], done + {ts[0]});
    }
  }

  /** Serving some tasks of a queue ends the waits of those of them that wait there. */
  lemma {:induction false} WakeAllEffect(k: K, o: nat, ts: seq<nat>)
    requires Core(k, -1, {})
    ensures |k.t.tstat| == |k.t.winfo| && Wakes(k, WakeAll(k, o, ts), Named(k.t.tstat, o, ts, {}), E_OK)
    decreases |ts|
  {
    hide Core, EndWait, Wakes, LinksOk, Shape, WqOk, Sorted, Without, StatEnd;
    CoreOrder(k);
    ShapeLengths(k);
    if ts == [] {
      NobodyWakes(k, E_OK);
    } else if WaitsOn(k, ts[0], o) {
      var t, k1 := ts[0], EndWait(k, ts[0], E_OK);
      EndWaitEffect(k, t, E_OK);
      EndWaitFields(k, t, E_OK);
      EndWaitCore(k, -1, {}, t, E_OK);
      WakeAllEffect(k1, o, ts[1..]);
      NamedSame(k.t.tstat, k1.t.tstat, o, ts[1..], {t}, {});
      NamedNew(k.t.tstat, o, ts[1..], {t});
      assert {} + {t} == {t};
      WakesThen(k, k1, WakeAll(k, o, ts), [t], Named(k1.t.tstat, o, ts[1..], {}), E_OK);
    } else {
      WakeAllEffect(k, o, ts[1..]);
    }
  }

  // ----- A wait that begins -------------------------------------------------

  /** Task `r` starts to wait: it leaves the ready list, joins the queue of the object it waits
      for, at the end or behind its equals, and its timer, if it gave a time, is set to the
      base time and the time it gave. */
  ghost predicate WaitBegins(k: K, k1: K, r: nat, fac: Factor, d: Option<nat>) {
    && k.cfg.per.Ok() && r < |k.t.tstat| == |k.t.winfo| && |k.cfg.obj| == |k.q.wq| == |k1.q.wq|
    && k1.cfg == k.cfg
    && k1.t == k.t.(tstat := k.t.tstat[r := Waiting(fac, false)],
                    winfo := k.t.winfo[r := if d.Some? then Timer else NoTimer])
    && k1.q == k.q.(rq := Remove(k.q.rq, r), wq := k1.q.wq)
    && (forall o {:trigger k1.q.wq[o]} :: 0 <= o < |k.q.wq| ==>
          if fac != WaitObj(o) then k1.q.wq[o] == k.q.wq[o]
          else if k.cfg.obj[o].tpri then LinesUp(k.q.wq[o], k1.q.wq[o], k.t.pri, [], [r])
          else k1.q.wq[o] == k.q.wq[o] + [r])
    && k1.e == k.e.(tmr := if d.Some? then k.e.tmr[Tsk(r) := Base(k) + d.value] else k.e.tmr)
  }

  lemma BlockEffect(k: K, r: nat, fac: Factor, d: Option<nat>)
    requires Core(k, -1, {}) && r < |k.t.tstat| && (fac.WaitObj? ==> fac.o < |k.q.wq|)
    ensures Shape(k) && k.cfg.per.Ok() && WaitBegins(k, Block(k, r, fac, d), r, fac, d) && Block(k, r, fac, d).c == k.c
  {
    hide Core, Remove, InsertLast, LinesUp, Period.Ceil, Period.Ok, LinksOk, WqOk, Sorted, CeilOk;
    CoreShape(k);
    CoreOrder(k);
    if fac.WaitObj? && k.cfg.obj[fac.o].tpri {
      LinesUpLast(k.q.wq[fac.o], k.t.pri, r);
    }
  }

  // ----- Changes of place ---------------------------------------------------

  /** Only the current priority of task `t` changes, and with it the place of the task: in the
      ready list it goes ahead of its new equals or behind them, in a queue with TA_TPRI
      behind them. */
  ghost predicate Moves(k: K, k1: K, t: nat, ahead: bool) {
    && t < |k.t.tstat| == |k.t.pri| == |k1.t.pri| && k1.t.pri == k.t.pri[t := k1.t.pri[t]]
    && |k.cfg.obj| == |k.q.wq| == |k1.q.wq|
    && (if k.t.tstat[t].Runnable? then
          LinesUp(Remove(k.q.rq, t), k1.q.rq, k1.t.pri, if ahead then [t] else [], if ahead then [] else [t])
        else k1.q.rq == k.q.rq)
    && (forall o {:trigger k1.q.wq[o]} :: 0 <= o < |k.q.wq| ==>
          if WaitsOn(k, t, o) && k.cfg.obj[o].tpri then LinesUp(Remove(k.q.wq[o], t), k1.q.wq[o], k1.t.pri, [], [t])
          else k1.q.wq[o] == k.q.wq[o])
  }

  /** Task `t` keeps its current priority and its place, or both change. */
  ghost predicate MaybeMoves(k: K, k1: K, t: nat) {
    if t < |k.t.pri| && t < |k1.t.pri| && k1.t.pri[t] != k.t.pri[t] then Moves(k, k1, t, true)
    else k1.t.pri == k.t.pri && k1.q.rq == k.q.rq && k1.q.wq == k.q.wq
  }

  lemma ChangePriorityEffect(k: K, t: nat, p: nat, mtxmode: bool)
    requires Shape(k) && LinksOk(k.t.tstat, k.q.rq, k.q.wq, -1) && OrderOk(k.cfg, k.q.rq, k.q.wq, k.t.pri)
    requires t < |k.t.tstat|
    ensures var k1 := ChangePriority(k, t, p, mtxmode);
            && Moves(k, k1, t, mtxmode) && k1.t.pri[t] == p
            && k1 == k.(t := k.t.(pri := k1.t.pri), q := k.q.(rq := k1.q.rq, wq := k1.q.wq))
  {
    hide InsertLast, InsertFirst, Remove, Sorted, NoDup, LinesUp;
    var pri1 := k.t.pri[t := p];
    match k.t.tstat[t]
    case Runnable => MovedReady(k, t, p);
    case Waiting(WaitObj(o), _) =>
      if o < |k.q.wq| && k.cfg.obj[o].tpri {
        RemovedSorted(k.q.wq[o], k.t.pri, t, p);
        LinesUpLast(Remove(k.q.wq[o], t), pri1, t);
      }
    case _ =>
  }

  lemma MovedReady(k: K, t: nat, p: nat)
    requires LinksOk(k.t.tstat, k.q.rq, k.q.wq, -1) && OrderOk(k.cfg, k.q.rq, k.q.wq, k.t.pri)
    ensures t < |k.t.pri| ==>
              var q, pri1 := Remove(k.q.rq, t), k.t.pri[t := p];
              LinesUp(q, InsertFirst(q, pri1, t), pri1, [t], []) && LinesUp(q, InsertLast(q, pri1, t), pri1, [], [t])
  {
    hide InsertLast, InsertFirst, Remove, Sorted, NoDup, LinesUp;
    if t < |k.t.pri| {
      RemovedSorted(k.q.rq, k.t.pri, t, p);
      LinesUpFirst(Remove(k.q.rq, t), k.t.pri[t := p], t);
      LinesUpLast(Remove(k.q.rq, t), k.t.pri[t := p], t);
    }
  }

  lemma RemovedSorted(q: seq<nat>, pri: seq<nat>, t: nat, p: nat)
    requires Sorted(q, pri) && NoDup(q) && t < |pri|
    ensures Sorted(Remove(q, t), pri[t := p])
  {
    RemoveNoDup(q, t);
    RemoveSorted(q, pri, t);
  }

  /** Taking a mutex puts it in front of those already held, and may raise the task. */
  lemma AcquireEffect(k: K, r: nat, m: nat)
    requires Core(k, -1, {}) && r < |k.t.tstat| && k.t.tstat[r].Runnable? && m < |k.q.wq|
    ensures Shape(k)
    ensures var k1 := Acquire(k, r, m);
            && k1 == k.(t := k.t.(pri := k1.t.pri, held := k.t.held[r := [m] + k.t.held[r]]),
                        q := k.q.(loc := k.q.loc[m := Some(r)], rq := k1.q.rq, wq := k1.q.wq))
            && MaybeMoves(k, k1, r)
  {
    hide PriOk, IdleOk, TmrOk, SemOk, ClockOk, CfgOk, OwnOk, LinksOk, OrderOk, ChangePriority, LinesUp, Remove;
    var k0 := k.(q := k.q.(loc := k.q.loc[m := Some(r)]), t := k.t.(held := k.t.held[r := [m] + k.t.held[r]]));
    if k.cfg.Ceil(m).Some? && k.cfg.Ceil(m).value < k.t.pri[r] {
      ChangePriorityEffect(k0, r, k.cfg.Ceil(m).value, true);
      SameMoves(k, k0, Acquire(k, r, m), r);
    }
  }

  /** Moves looks at states, priorities and queues only. */
  lemma SameMoves(k: K, k0: K, k1: K, t: nat)
    requires k0.t.tstat == k.t.tstat && k0.t.pri == k.t.pri && k0.q.rq == k.q.rq && k0.q.wq == k.q.wq && k0.cfg == k.cfg
    ensures forall ahead :: Moves(k0, k1, t, ahead) <==> Moves(k, k1, t, ahead)
  {
    hide LinesUp;
  }

  /** Giving a mutex up takes it out of the list, and may lower the task. */
  lemma GiveUpEffect(k: K, ys: set<nat>, t: nat, m: nat)
    requires Core(k, -1, ys) && t < |k.t.tstat| && m < |k.q.wq|
    ensures Shape(k)
    ensures var k1 := GiveUp(k, t, m);
            && k1 == k.(t := k.t.(pri := k1.t.pri, held := k.t.held[t := Remove(k.t.held[t], m)]),
                        q := k.q.(rq := k1.q.rq, wq := k1.q.wq))
            && MaybeMoves(k, k1, t)
  {
    hide PriOk, IdleOk, TmrOk, SemOk, ClockOk, CfgOk, OwnOk, LinksOk, OrderOk, ChangePriority, LinesUp, Remove;
    var k0 := k.(t := k.t.(held := k.t.held[t := Remove(k.t.held[t], m)]));
    var p := CalcPri(k.cfg, k0.t.held[t], k0.t.bpri[t]);
    if k.cfg.Ceil(m) == Some(k.t.pri[t]) && p != k.t.pri[t] {
      ChangePriorityEffect(k0, t, p, true);
      SameMoves(k, k0, GiveUp(k, t, m), t);
    }
  }

  // ----- Mutexes that change hands ------------------------------------------

  /** The first waiters for the mutexes `ms`, in the order of the mutexes. */
  function Heirs(wq: seq<seq<nat>>, ms: seq<nat>): seq<nat> {
    if ms == [] then [] else (if ms[0] < |wq| && wq[ms[0]] != [] then [wq[ms[0]][0]] else []) + Heirs(wq, ms[1..])
  }

  /** Those of the mutexes `ms` that task `v` is the first to wait for. */
  function Won(wq: seq<seq<nat>>, ms: seq<nat>, v: nat): seq<nat> {
    if ms == [] then []
    else (if ms[0] < |wq| && wq[ms[0]] != [] && wq[ms[0]][0] == v then [ms[0]] else []) + Won(wq, ms[1..], v)
  }

  /** The mutexes `ms` change hands: the waits of their first waiters end with E_OK, each adds
      the mutex to the end of its list, and they get ready behind their equals. */
  ghost predicate HandsOver(k: K, k1: K, ms: seq<nat>) {
    && WaitsEnd(k, k1, Heirs(k.q.wq, ms), E_OK)
    && |k1.t.held| == |k.t.held| && |k1.t.pri| == |k.t.pri|
    && (forall v {:trigger k1.t.held[v]} :: 0 <= v < |k.t.held| ==> k1.t.held[v] == k.t.held[v] + Won(k.q.wq, ms, v))
    && (forall v {:trigger k1.t.pri[v]} :: 0 <= v < |k.t.pri| && v !in Heirs(k.q.wq, ms) ==> k1.t.pri[v] == k.t.pri[v])
    && LinesUp(k.q.rq, k1.q.rq, k1.t.pri, [], Woken(k.t.tstat, Heirs(k.q.wq, ms)))
  }

  lemma HandOverEffect(k: K, x: int, ys: set<nat>, m: nat)
    requires Core(k, x, ys) && m < |k.q.wq|
    ensures Shape(k) && (k.q.wq[m] != [] ==> k.q.wq[m][0] < |k.t.tstat| && k.t.tstat[k.q.wq[m][0]].Waiting?)
    ensures HandsOver(k, HandOver(k, m), [m]) && HandOver(k, m).c == k.c
  {
    hide Core, Shape, HandOver, EndWait, HandsOver, LinksOk;
    CoreShaped(k, x, ys);
    if k.q.wq[m] == [] {
      Freed(k, m);
    } else {
      var u := k.q.wq[m][0];
      HandOverIsEndWait(k, x, m);
      Promoted(k, x, ys, m);
      EndWaitEffect(Promote(k, u, m), u, E_OK);
      FromPromoted(k, m, EndWait(Promote(k, u, m), u, E_OK));
    }
  }

  lemma CoreShaped(k: K, x: int, ys: set<nat>)
    requires Core(k, x, ys)
    ensures Shape(k) && LinksOk(k.t.tstat, k.q.rq, k.q.wq, x) && Sane(k) && OrderOk(k.cfg, k.q.rq, k.q.wq, k.t.pri)
  {
    hide PriOk, IdleOk, TmrOk, SemOk, ClockOk, CfgOk, OwnOk, LinksOk, OrderOk, WqOk, HeldOk;
    CoreSane(k, x, ys);
  }

  lemma Freed(k: K, m: nat)
    requires Shape(k) && m < |k.q.wq| && k.q.wq[m] == []
    ensures HandsOver(k, HandOver(k, m), [m]) && HandOver(k, m).c == k.c
  {
    hide WaitsEnd;
    OneHeir(k.q.wq, m);
    NobodyWakes(k, E_OK);
    OtherOwners(k, k, HandOver(k, m), [], E_OK);
  }

  /** WaitsEnd does not look at owners, lists of mutexes and priorities. */
  lemma OtherOwners(k: K, k1: K, k2: K, vs: seq<nat>, er: Er)
    requires WaitsEnd(k, k1, vs, er)
    requires k2.cfg == k1.cfg && k2.e == k1.e
    requires k2.t == k1.t.(held := k2.t.held, pri := k2.t.pri) && k2.q == k1.q.(loc := k2.q.loc)
    ensures WaitsEnd(k, k2, vs, er)
  {
  }

  /** The first waiter, with the mutex but still waiting. */
  lemma Promoted(k: K, x: int, ys: set<nat>, m: nat)
    requires Core(k, x, ys) && m < |k.q.wq| && k.q.wq[m] != []
    ensures Shape(k) && k.q.wq[m][0] < |k.t.tstat|
    ensures var k1 := Promote(k, k.q.wq[m][0], m); |k1.t.tstat| == |k1.t.winfo| && WqOk(k1) && Sorted(k1.q.rq, k1.t.pri)
  {
    hide PriOk, IdleOk, TmrOk, SemOk, ClockOk, CfgOk, OwnOk;
    CoreSane(k, x, ys);
    var u := k.q.wq[m][0];
    assert u in k.q.wq[m] && u !in k.q.rq;
    var k1 := Promote(k, u, m);
    OtherPri(k.cfg, k.q, k.t.pri, u, k1.t.pri[u]);
    forall o | 0 <= o < |k1.q.wq|
      ensures NoDup(k1.q.wq[o]) && forall t :: t in k1.q.wq[o] ==> WaitsOn(k1, t, o)
    {
      assert forall t :: t in k.q.wq[o] ==> WaitsOn(k, t, o);
    }
  }

  lemma FromPromoted(k: K, m: nat, k1: K)
    requires Shape(k) && m < |k.q.wq| && k.q.wq[m] != [] && k.q.wq[m][0] < |k.t.tstat|
    requires Wakes(Promote(k, k.q.wq[m][0], m), k1, [k.q.wq[m][0]], E_OK)
    ensures HandsOver(k, k1, [m])
  {
    hide LinesUp, StatEnd, InfoEnd, Woken, Without, TskBlks;
    OneHeir(k.q.wq, m);
  }

  lemma OneHeir(wq: seq<seq<nat>>, m: nat)
    requires m < |wq|
    ensures Heirs(wq, [m]) == if wq[m] == [] then [] else [wq[m][0]]
    ensures forall v :: Won(wq, [m], v) == if wq[m] != [] && wq[m][0] == v then [m] else []
  {
    assert [m][1..] == [];
  }

  lemma {:induction false} HeirsSame(wq: seq<seq<nat>>, wq1: seq<seq<nat>>, ms: seq<nat>, v: nat)
    requires forall m :: m in ms ==> m < |wq| == |wq1| && wq1[m] == wq[m]
    ensures Heirs(wq1, ms) == Heirs(wq, ms) && Won(wq1, ms, v) == Won(wq, ms, v)
  {
    if ms != [] {
      assert ms[0] in ms && forall m :: m in ms[1..] ==> m in ms;
      HeirsSame(wq, wq1, ms[1..], v);
    }
  }

  lemma {:induction false} HeirsFirst(wq: seq<seq<nat>>, ms: seq<nat>)
    ensures forall v :: v in Heirs(wq, ms) <==> exists m :: m in ms && m < |wq| && wq[m] != [] && wq[m][0] == v
  {
    if ms != [] {
      assert ms[0] in ms && forall m :: m in ms <==> m == ms[0] || m in ms[1..];
      HeirsFirst(wq, ms[1..]);
    }
  }

  lemma {:induction false} WokenAmong(tstat: seq<TStat>, vs: seq<nat>)
    ensures forall v :: v in Woken(tstat, vs) <==> v in vs && v < |tstat| && tstat[v].Waiting? && !tstat[v].susp
  {
    if vs != [] {
      WokenAmong(tstat, vs[1..]);
    }
  }

  /** Heirs wait, each for one mutex only. */
  lemma HeirsWait(k: K, ms: seq<nat>)
    requires WqOk(k)
    ensures forall v :: v in Heirs(k.q.wq, ms) ==> exists m :: m in ms && m < |k.q.wq| && WaitsOn(k, v, m)
  {
    HeirsFirst(k.q.wq, ms);
    forall m: nat | m < |k.q.wq| && k.q.wq[m] != []
      ensures WaitsOn(k, k.q.wq[m][0], m)
    {
      assert k.q.wq[m][0] in k.q.wq[m];
    }
  }

  /** What has been placed stays placed when later heirs rise. */
  lemma EarlierPlaces(k: K, k1: K, k2: K, x: int, m: nat, ms: seq<nat>)
    requires WqOk(k) && LinksOk(k.t.tstat, k.q.rq, k.q.wq, x) && LinksOk(k1.t.tstat, k1.q.rq, k1.q.wq, x)
    requires WqOk(k1) && m < |k.q.wq| && m !in ms && |k1.q.wq| == |k.q.wq|
    requires HandsOver(k, k1, [m]) && HandsOver(k1, k2, ms) && Heirs(k1.q.wq, ms) == Heirs(k.q.wq, ms)
    ensures LinesUp(k.q.rq, k1.q.rq, k2.t.pri, [], Woken(k.t.tstat, Heirs(k.q.wq, [m])))
  {
    hide LinesUp, WaitsEnd, Woken, Heirs, Won, WqOk;
    var hs := Heirs(k.q.wq, [m]);
    WokenAmong(k.t.tstat, hs);
    OneHeir(k.q.wq, m);
    HeirsWait(k, [m]);
    HeirsWait(k, ms);
    HeirsWait(k1, ms);
    forall v | v in k.q.rq || v in k1.q.rq || v in Woken(k.t.tstat, hs)
      ensures v !in Heirs(k.q.wq, ms)
    {
    }
    LinesUpAgree(k.q.rq, k1.q.rq, k1.t.pri, k2.t.pri, [], Woken(k.t.tstat, hs));
  }

  lemma HandsThen(k: K, k1: K, k2: K, x: int, m: nat, ms: seq<nat>)
    requires WqOk(k) && LinksOk(k.t.tstat, k.q.rq, k.q.wq, x) && LinksOk(k1.t.tstat, k1.q.rq, k1.q.wq, x)
    requires WqOk(k1) && m < |k.q.wq| && m !in ms && |k1.q.wq| == |k.q.wq|
    requires forall i :: i in ms ==> i < |k.q.wq| && k1.q.wq[i] == k.q.wq[i]
    requires HandsOver(k, k1, [m]) && HandsOver(k1, k2, ms)
    ensures HandsOver(k, k2, [m] + ms)
  {
    hide LinesUp, WaitsEnd, Woken, Heirs, Won, WqOk, LinksOk, StatEnd;
    var a, b := Heirs(k.q.wq, [m]), Heirs(k.q.wq, ms);
    HeirsSame(k.q.wq, k1.q.wq, ms, 0);
    EarlierPlaces(k, k1, k2, x, m, ms);
    EndsThen(k, k1, k2, a, b, E_OK);
    HeirsConcat(k.q.wq, m, ms);
    StatOf(k, k1, a, E_OK);
    OneHeir(k.q.wq, m);
    HeirsWait(k, [m]);
    HeirsWait(k, ms);
    forall v | v in b
      ensures v !in a
    {
    }
    WokenLater(k.t.tstat, a, b);
    WokenConcat(k.t.tstat, a, b);
    LinesUpThen(k.q.rq, k1.q.rq, k2.q.rq, k2.t.pri, [], Woken(k.t.tstat, a), [], Woken(k.t.tstat, b));
    var none: seq<nat> := [];
    assert none + none == none;
    forall v | 0 <= v < |k.t.held|
      ensures k2.t.held[v] == k.t.held[v] + Won(k.q.wq, [m] + ms, v)
    {
      HeirsSame(k.q.wq, k1.q.wq, ms, v);
      WonConcat(k.q.wq, m, ms, v);
      assert k1.t.held[v] == k.t.held[v] + Won(k.q.wq, [m], v);
    }
  }

  lemma HeirsConcat(wq: seq<seq<nat>>, m: nat, ms: seq<nat>)
    ensures Heirs(wq, [m] + ms) == Heirs(wq, [m]) + Heirs(wq, ms)
  {
    assert ([m] + ms)[1..] == ms && [m][1..] == [];
  }

  lemma WonConcat(wq: seq<seq<nat>>, m: nat, ms: seq<nat>, v: nat)
    ensures Won(wq, [m] + ms, v) == Won(wq, [m], v) + Won(wq, ms, v)
  {
    assert ([m] + ms)[1..] == ms && [m][1..] == [];
  }

  /** mutex_release_all hands over each mutex of the list. */
  lemma {:induction false} ReleaseListEffect(k: K, x: nat, ms: seq<nat>)
    requires Core(k, x, Elems(ms)) && NoDup(ms) && x < |k.t.tstat| && k.t.held[x] == []
    requires forall m :: m in ms ==> m < |k.q.loc| && k.q.loc[m] == Some(x)
    ensures Sane(k) && (forall m :: m in ms ==> m < |k.cfg.obj|)
    ensures HandsOver(k, ReleaseList(k, ms), ms) && ReleaseList(k, ms).c == k.c
    decreases |ms|
  {
    hide Core, EndWait, HandOver, HandsOver, LinksOk, WqOk, Shape, OrderOk;
    CoreShaped(k, x, Elems(ms));
    ShapeLengths(k);
    if ms == [] {
      Nothing(k);
    } else {
      ReleaseStep(k, x, ms);
      var m, k1 := ms[0], HandOver(k, ms[0]);
      HandOverEffect(k, x, Elems(ms), m);
      HandOverOwners(k, m);
      ReleaseListEffect(k1, x, ms[1..]);
      CoreShaped(k1, x, Elems(ms[1..]));
      assert forall i :: i in ms[1..] ==> i in ms;
      HandsThen(k, k1, ReleaseList(k1, ms[1..]), x, m, ms[1..]);
      assert ms == [m] + ms[1..];
    }
  }

  lemma Nothing(k: K)
    ensures HandsOver(k, k, [])
  {
    NobodyWakes(k, E_OK);
  }

  // ----- The end of a task --------------------------------------------------

  /** Task `t` ends, and starts again if its activation was queued.  It leaves whatever queue it
      is in; flags, priorities and mutexes go back to what they are at start-up; its mutexes
      change hands, and if it starts again it gets ready behind their new owners.  `gone` are
      the tasks that are still to be taken out of their queues: the task itself, or nobody. */
  ghost predicate TaskEnds(k: K, k1: K, t: nat, gone: seq<nat>) {
    && t < |k.t.tstat| && |k.t.tstat| == |k.t.winfo| == |k.t.flag| == |k.t.bpri| == |k.t.pri| == |k.t.held| == |k.cfg.ipri|
    && k1.cfg == k.cfg
    && (var hs := Heirs(k.q.wq, k.t.held[t]);
      && k1.t == k.t.(tstat := StatEnd(k.t.tstat, hs)[t := if k.t.flag[t].actque then Runnable else Dormant],
                      winfo := InfoEnd(k.t.winfo, hs, E_OK),
                      flag := k.t.flag[t := Flags(false, false, false)],
                      bpri := k.t.bpri[t := k.cfg.ipri[t]],
                      pri := k1.t.pri, held := k1.t.held)
      && |k1.t.pri| == |k.t.pri| && k1.t.pri[t] == k.cfg.ipri[t]
      && (forall v {:trigger k1.t.pri[v]} :: 0 <= v < |k.t.pri| && v != t && v !in hs ==> k1.t.pri[v] == k.t.pri[v])
      && |k1.t.held| == |k.t.held| && k1.t.held[t] == []
      && (forall v {:trigger k1.t.held[v]} :: 0 <= v < |k.t.held| && v != t ==>
            k1.t.held[v] == k.t.held[v] + Won(k.q.wq, k.t.held[t], v))
      && k1.q == k.q.(rq := k1.q.rq, wq := k1.q.wq, loc := k1.q.loc)
      && LinesUp(Without(k.q.rq, gone), k1.q.rq, k1.t.pri, [],
                Woken(k.t.tstat, hs) + if k.t.flag[t].actque then [t] else [])
      && |k1.q.wq| == |k.q.wq|
      && (forall o {:trigger k1.q.wq[o]} :: 0 <= o < |k.q.wq| ==> k1.q.wq[o] == Without(k.q.wq[o], gone + hs))
      && k1.e == k.e.(tmr := k.e.tmr - TskBlks(gone + hs)))
  }

  lemma TerminateEffect(k: K, t: nat)
    requires Core(k, t, {}) && t < |k.t.tstat|
    ensures Sane(k) && TaskEnds(k, Terminate(k, t), t, []) && Terminate(k, t).c == k.c
  {
    hide Core, ReleaseList, HandsOver, LinksOk, OrderOk, WqOk, Shape, HeldOk, TaskEnds, MakeDormant, Restart, CeilOk;
    hide Period.Ok;
    CoreShaped(k, t, {});
    ShapeLengths(k);
    DropHeld(k, t);
    var k0 := k.(t := k.t.(held := k.t.held[t := []]));
    CoreShaped(k0, t, Elems(k.t.held[t]));
    ReleaseListEffect(k0, t, k.t.held[t]);
    ReleaseListCore(k0, t, k.t.held[t]);
    ReleaseListOk(k0, k.t.held[t]);
    var k1 := ReleaseAll(k, t);
    CoreShaped(k1, t, {});
    AtTheEnd(k, k0, k1, t);
    Ended(k, k0, k1, t);
  }

  /** The ready list of a task that ends: it is in no queue, so its priority does not matter
      until it starts again. */
  lemma AtTheEnd(k: K, k0: K, k1: K, t: nat)
    requires t < |k.t.tstat| == |k.t.pri| == |k1.t.pri| && t < |k.cfg.ipri|
    requires t < |k.t.held| && k0 == k.(t := k.t.(held := k.t.held[t := []]))
    requires HandsOver(k0, k1, k.t.held[t])
    requires LinksOk(k.t.tstat, k.q.rq, k.q.wq, t) && LinksOk(k1.t.tstat, k1.q.rq, k1.q.wq, t)
    requires OrderOk(k1.cfg, k1.q.rq, k1.q.wq, k1.t.pri)
    ensures var w := Woken(k.t.tstat, Heirs(k.q.wq, k.t.held[t]));
            var pri1 := k1.t.pri[t := k.cfg.ipri[t]];
            && LinesUp(k.q.rq, k1.q.rq, pri1, [], w + [])
            && LinesUp(k.q.rq, InsertLast(k1.q.rq, pri1, t), pri1, [], w + [t])
            && t !in Heirs(k.q.wq, k.t.held[t])
  {
    hide LinesUp, StatEnd, InfoEnd, Woken, Heirs, Won, WaitsEnd, TskBlks, Sorted, InsertLast;
    var hs := Heirs(k.q.wq, k.t.held[t]);
    var w := Woken(k.t.tstat, hs);
    var pri1 := k1.t.pri[t := k.cfg.ipri[t]];
    NotInQueue(k, t);
    HeirsFirst(k.q.wq, k.t.held[t]);
    WokenAmong(k.t.tstat, hs);
    OtherPri(k1.cfg, k1.q, k1.t.pri, t, k.cfg.ipri[t]);
    LinesUpAgree(k.q.rq, k1.q.rq, k1.t.pri, pri1, [], w);
    LinesUpLast(k1.q.rq, pri1, t);
    LinesUpThen(k.q.rq, k1.q.rq, InsertLast(k1.q.rq, pri1, t), pri1, [], w, [], [t]);
    var none: seq<nat> := [];
    assert none + none == none && w + none == w;
  }

  lemma NotInQueue(k: K, t: nat)
    requires LinksOk(k.t.tstat, k.q.rq, k.q.wq, t)
    ensures t !in k.q.rq && forall o :: 0 <= o < |k.q.wq| ==> t !in k.q.wq[o] && (k.q.wq[o] != [] ==> k.q.wq[o][0] != t)
  {
    assert forall o :: 0 <= o < |k.q.wq| && k.q.wq[o] != [] ==> k.q.wq[o][0] in k.q.wq[o];
  }

  lemma Ended(k: K, k0: K, k1: K, t: nat)
    requires Shape(k) && Shape(k1) && CfgOk(k.cfg) && t < |k.t.tstat| && k0 == k.(t := k.t.(held := k.t.held[t := []]))
    requires HandsOver(k0, k1, k.t.held[t]) && k1.t.held[t] == [] && k1.c == k.c
    requires var w := Woken(k.t.tstat, Heirs(k.q.wq, k.t.held[t]));
             var pri1 := k1.t.pri[t := k.cfg.ipri[t]];
             && LinesUp(k.q.rq, k1.q.rq, pri1, [], w + [])
             && LinesUp(k.q.rq, InsertLast(k1.q.rq, pri1, t), pri1, [], w + [t])
    ensures Shape(MakeDormant(k1, t))
    ensures var k2 := Restart(MakeDormant(k1, t), t); TaskEnds(k, k2, t, []) && k2.c == k.c
  {
    hide LinesUp, StatEnd, InfoEnd, Woken, Heirs, Won, Without, TskBlks, InsertLast;
    assert Shape(MakeDormant(k1, t)) by { IniPri(k.cfg, t); }
    NoneGone(k, Heirs(k.q.wq, k.t.held[t]));
    if k.t.flag[t].actque {
    } else {
    }
  }

  lemma NoneGone(k: K, hs: seq<nat>)
    ensures [] + hs == hs && Without(k.q.rq, []) == k.q.rq
  {
  }

  /** ter_tsk and ext_tsk: the task leaves its queue first. */
  lemma DetachedEnds(k: K, k1: K, t: nat)
    requires Core(k, -1, {}) && t < |k.t.tstat|
    requires Shape(k) && TaskEnds(Detach(k, t), k1, t, [])
    ensures TaskEnds(k, k1, t, [t])
  {
    hide Core, LinesUp, StatEnd, InfoEnd, Woken, Heirs, Won, Without, TskBlks, Shape, Detach;
    CoreShape(k);
    ShapeLengths(k);
    OwnedExactly(k, t);
    DetachQueues(k, t);
    var d := Detach(k, t);
    Detached(k, t);
    var ms := k.t.held[t];
    forall v: nat
      ensures Won(d.q.wq, ms, v) == Won(k.q.wq, ms, v)
    {
      HeirsSame(k.q.wq, d.q.wq, ms, v);
    }
    HeirsSame(k.q.wq, d.q.wq, ms, t);
    var hs := Heirs(k.q.wq, ms);
    assert Without(d.q.rq, []) == d.q.rq by { NoneGone(d, hs); }
    TskBlksThen([t], hs);
    var none: seq<nat> := [];
    assert none + hs == hs;
    assert k.e.tmr - TskBlks([t]) - TskBlks(hs) == k.e.tmr - (TskBlks([t]) + TskBlks(hs));
    forall o | 0 <= o < |k.q.wq|
      ensures k1.q.wq[o] == Without(k.q.wq[o], [t] + hs)
    {
      WithoutThen(k.q.wq[o], [t], hs);
      assert k1.q.wq[o] == Without(d.q.wq[o], [] + hs);
    }
  }

  lemma TskBlksThen(a: seq<nat>, b: seq<nat>)
    ensures TskBlks(a + b) == TskBlks(a) + TskBlks(b)
  {
  }

  lemma Detached(k: K, t: nat)
    requires Core(k, -1, {}) && t < |k.t.tstat|
    ensures Shape(k)
    ensures var d := Detach(k, t);
            && d == k.(q := k.q.(rq := d.q.rq, wq := d.q.wq), e := k.e.(tmr := k.e.tmr - TskBlks([t])))
            && d.q.rq == Without(k.q.rq, [t]) && |d.q.wq| == |k.q.wq|
            && forall o :: 0 <= o < |k.q.wq| ==> d.q.wq[o] == Without(k.q.wq[o], [t])
  {
    hide PriOk, IdleOk, SemOk, ClockOk, CfgOk, OwnOk, OrderOk, WqOk, HeldOk, NoDup;
    assert TskBlks([t]) == {Tsk(t)} && [t][1..] == [];
    assert Tsk(t) !in k.e.tmr ==> k.e.tmr - {Tsk(t)} == k.e.tmr;
    CoreSane(k, -1, {});
    match k.t.tstat[t]
    case Waiting(_, _) =>
      WithoutOne(k, t);
      assert Unlink(k, t).q.wq == WithoutWaiter(k.t.tstat, k.q.wq, t);
    case _ =>
  }
}
