/** The kernel as it keeps its state: tables of control blocks, ready queues with their
    bitmap, the cached task to run, and the time-event heap.  Every method is proved
    against the step of the state machine that it performs. */
module Kernel {
  import opened Basics
  import opened OrderedList
  import opened TimeEvent
  import opened KernelSpec
  import opened KernelInv
  import opened KernelCalls
  import opened Runs
  import opened Ticks
  import opened ReadyQueue
  import opened WaitQueue

  /** The ready queues, the bitmap and the cached task to run agree. */
  ghost predicate ReadyOk(rd: seq<seq<nat>>, pri: seq<nat>, primap: bv16, sched: Option<nat>) {
    && |rd| == TNUM_TPRI
    && Placed(rd, pri)
    && BitsOk(rd, primap)
    && sched == (if Flatten(rd) == [] then None else Some(Flatten(rd)[0]))
  }

  ghost predicate BitsOk(rd: seq<seq<nat>>, primap: bv16)
    requires |rd| == TNUM_TPRI
  {
    forall p {:trigger rd[p]} {:trigger IsSet(primap, p)} :: 0 <= p < TNUM_TPRI ==> (IsSet(primap, p) <==> rd[p] != [])
  }

  /** The callback that goes with a registered event. */
  function CbackOf(tstat: seq<TStat>, b: Blk): Cback {
    match b
    case Tsk(t) => if t < |tstat| && tstat[t].Waiting? && tstat[t].fac.WaitDly? then WaitTmoutOk else WaitTmout
    case Cyc(_) => CallCychdr
    case Alm(_) => CallAlmhdr
  }

  function BlockSet(c: Cfg): set<Blk> {
    set b | b in AllBlocks(c)
  }

  class Hrp2 {
    const cfg: Cfg
    const tm: TimeEvents

    // The task control blocks.
    var tstat: seq<TStat>
    var bpriority: seq<nat>
    var priority: seq<nat>
    var mutexQueue: seq<seq<nat>>
    var winfo: seq<Winfo>
    var flag: seq<Flags>

    // Scheduling.
    var readyQueue: seq<seq<nat>>
    var readyPrimap: bv16
    var schedtsk: Option<nat>
    var runtsk: Option<nat>
    var reqflg: bool
    var ipmflg: bool
    var disdsp: bool
    var dspflg: bool
    var inint: bool

    // Mutexes and semaphores.
    var waitQueue: seq<seq<nat>>
    var loctsk: seq<Option<nat>>
    var semcnt: seq<nat>

    // Cyclic and alarm handlers.
    var cycsta: seq<bool>
    var evttim: seq<Word>
    var almsta: seq<bool>

    ghost var evt: seq<int>  // the unbounded times behind `evttim`
    ghost var ticking: bool  // signal_time is at work

    /** The state of the state machine that the tables stand for. */
    ghost function Abs(): K
      reads this, tm
    {
      K(cfg,
        Tasks(tstat, bpriority, priority, mutexQueue, winfo, flag),
        Queues(Flatten(readyQueue), waitQueue, loctsk, semcnt),
        Timers(tm.ev, cycsta, evt, almsta, tm.n, ticking),
        Context(runtsk, reqflg, ipmflg, disdsp, inint))
    }

    ghost predicate SchedOk()
      reads `readyQueue, `priority, `readyPrimap, `schedtsk
    {
      ReadyOk(readyQueue, priority, readyPrimap, schedtsk)
    }

    /** The clock of the heap stands where the state machine says. */
    ghost predicate TimeOk()
      reads tm, tm.heap, `evttim, `evt, `ticking
    {
      && tm.Valid() && tm.period == cfg.per && tm.blk.Keys == BlockSet(cfg)
      && tm.min == cfg.per.Floor(if ticking && tm.n > 0 then tm.n - 1 else tm.n)
      && |evttim| == |evt| && forall i :: 0 <= i < |evt| ==> evttim[i] == ToWord(evt[i])
    }

    ghost predicate CbacksOk()
      reads tm, `tstat
    {
      forall b {:trigger b in tm.ev} :: b in tm.ev ==> b in tm.blk && tm.blk[b].callback == CbackOf(tstat, b)
    }

    /** The tables are in order, apart from what `Inv` says of the abstract state. */
    ghost predicate Rep()
      reads `readyQueue, `priority, `readyPrimap, `schedtsk, `evttim, `evt, `ticking, `tstat, `dspflg, `ipmflg, `disdsp
      reads tm, tm.heap
    {
      SchedOk() && TimeOk() && CbacksOk() && dspflg == (ipmflg && !disdsp)
    }

    ghost predicate Valid()
      reads this, tm, tm.heap
    {
      Rep() && Inv(Abs())
    }

    /** The heap holds one node for each armed timer, and nothing else. */
    lemma HeapSize()
      requires Valid()
      ensures tm.lastIndex == |Armed(Abs())|
      ensures forall b :: b in Armed(Abs()) <==> b in tm.ev
    {
      hide Inv, Armed, SchedOk, CbacksOk;
      ArmedExactly(Abs());
      assert |tm.ev| == |tm.ev.Keys|;
    }

    constructor (c: Cfg)
      requires CfgOk(c)
      ensures Valid() && Abs() == Asleep(c) && fresh(tm) && fresh(tm.heap)
    {
      cfg := c;
      var nt := |c.ipri|;
      tm := new TimeEvents(BlockSet(c), c.per);
      tstat := seq(nt, _ => Dormant);
      bpriority := c.ipri;
      priority := c.ipri;
      mutexQueue := seq(nt, _ => []);
      winfo := seq(nt, _ => NoTimer);
      flag := seq(nt, _ => Flags(false, false, false));
      readyQueue := seq(TNUM_TPRI, _ => []);
      readyPrimap := 0;
      schedtsk := None;
      runtsk := None;
      reqflg := false;
      ipmflg := true;
      disdsp := false;
      dspflg := true;
      inint := false;
      waitQueue := seq(|c.obj|, _ => []);
      loctsk := seq(|c.obj|, _ => None);
      semcnt := seq(|c.obj|, o requires 0 <= o < |c.obj| => if c.obj[o].SemAttr? then c.obj[o].init else 0);
      cycsta := seq(|c.cyc|, _ => false);
      evttim := seq(|c.cyc|, _ => 0);
      almsta := seq(c.nalm, _ => false);
      evt, ticking := seq(|c.cyc|, _ => 0), false;
      new;
      NoQueue(readyQueue);
      SomeBit(0);
      StepTick(c.per, 0);
      AsleepCore(c);
      InvCore(Asleep(c));
      assert Abs() == Asleep(c);
    }

    // ----- kernel/task.c ----------------------------------------------------

    /** search_schedtsk. */
    method SearchSchedtsk() returns (t: nat)
      requires |readyQueue| == TNUM_TPRI && readyPrimap != 0 && BitsOk(readyQueue, readyPrimap)
      ensures Flatten(readyQueue) != [] && t == Flatten(readyQueue)[0]
    {
      hide IsSet;
      var schedpri := BitmapSearch(readyPrimap);
      FirstQueue(readyQueue, schedpri);
      t := readyQueue[schedpri][0];
    }

    /** make_runnable: the task joins its ready queue; answers whether a dispatch is needed. */
    method MakeRunnable(t: nat) returns (dspreq: bool)
      requires SchedOk() && t < |priority| && priority[t] < TNUM_TPRI
      modifies `readyQueue, `readyPrimap, `schedtsk
      ensures SchedOk()
      ensures Flatten(readyQueue) == InsertLast(old(Flatten(readyQueue)), priority, t)
      ensures dspreq <==> dspflg && schedtsk != old(schedtsk)
    {
      hide Flatten, IsSet, SetBits, InsertLast;
      var pri := priority[t];
      AppendIsInsertLast(readyQueue, priority, t);
      SetBitAll(readyPrimap, pri);
      InsertLastHead(Flatten(readyQueue), priority, t);
      readyQueue := readyQueue[pri := readyQueue[pri] + [t]];
      readyPrimap := SetBits(readyPrimap, PrimapBit(pri));
      if schedtsk == None || pri < Pri(priority, schedtsk.value) {
        schedtsk := Some(t);
        return dspflg;
      }
      return false;
    }

    /** make_non_runnable: the task leaves its ready queue. */
    method MakeNonRunnable(t: nat) returns (dspreq: bool)
      requires SchedOk() && t < |priority| && priority[t] < TNUM_TPRI
      requires t in Flatten(readyQueue) && NoDup(Flatten(readyQueue))
      modifies `readyQueue, `readyPrimap, `schedtsk
      ensures SchedOk()
      ensures Flatten(readyQueue) == Remove(old(Flatten(readyQueue)), t)
      ensures schedtsk == old(schedtsk) <==> old(schedtsk) != Some(t)
      ensures dspreq <==> dspflg && schedtsk != old(schedtsk)
    {
      hide Flatten, IsSet, ClearBits, Remove, NoDup, Placed;
      var pri := priority[t];
      InOwnQueue(readyQueue, priority, t);
      DeleteIsRemove(readyQueue, priority, t);
      ClearBitAll(readyPrimap, pri);
      HeadOfList(readyQueue, priority);
      RemoveHead(Flatten(readyQueue), t);
      ghost var sched0 := schedtsk;
      readyQueue := readyQueue[pri := Remove(readyQueue[pri], t)];
      assert Placed(readyQueue, priority) by { PlacedRemove(old(readyQueue), priority, t); }
      if readyQueue[pri] == [] {
        readyPrimap := ClearBits(readyPrimap, PrimapBit(pri));
        if schedtsk == Some(t) {
          BitmapEmpty(readyQueue, readyPrimap);
          if readyPrimap == 0 {
            schedtsk := None;
          } else {
            var s := SearchSchedtsk();
            schedtsk := Some(s);
          }
          return dspflg;
        }
      } else {
        if schedtsk == Some(t) {
          FirstQueue(readyQueue, pri);
          schedtsk := Some(readyQueue[pri][0]);
          return dspflg;
        }
      }
      return false;
    }

    /** The first part of moving a runnable task: out of the queue of its old priority. */
    method LeaveReady(t: nat, oldpri: nat, ghost newpri: nat, ghost pri0: seq<nat>)
      requires |readyQueue| == TNUM_TPRI && Placed(readyQueue, pri0) && BitsOk(readyQueue, readyPrimap)
      requires t < |pri0| && oldpri == pri0[t] < TNUM_TPRI && priority == pri0[t := newpri]
      requires t in Flatten(readyQueue) && NoDup(Flatten(readyQueue))
      modifies `readyQueue, `readyPrimap
      ensures |readyQueue| == TNUM_TPRI && Placed(readyQueue, priority) && BitsOk(readyQueue, readyPrimap)
      ensures Flatten(readyQueue) == Remove(old(Flatten(readyQueue)), t)
    {
      hide Flatten, IsSet, ClearBits, Remove, NoDup, Placed;
      InOwnQueue(readyQueue, pri0, t);
      DeleteIsRemove(readyQueue, pri0, t);
      ClearBitAll(readyPrimap, oldpri);
      RestPlaced(readyQueue, pri0, t, newpri);
      readyQueue := readyQueue[oldpri := Remove(readyQueue[oldpri], t)];
      if readyQueue[oldpri] == [] {
        readyPrimap := ClearBits(readyPrimap, PrimapBit(oldpri));
      }
    }

    /** The second part: into the queue of its new priority, at its head in mutex mode. */
    method JoinReady(t: nat, newpri: nat, mtxmode: bool)
      requires |readyQueue| == TNUM_TPRI && Placed(readyQueue, priority) && BitsOk(readyQueue, readyPrimap)
      requires newpri == Pri(priority, t) < TNUM_TPRI
      modifies `readyQueue, `readyPrimap
      ensures |readyQueue| == TNUM_TPRI && Placed(readyQueue, priority) && BitsOk(readyQueue, readyPrimap)
      ensures var q := old(Flatten(readyQueue));
              Flatten(readyQueue) == if mtxmode then InsertFirst(q, priority, t) else InsertLast(q, priority, t)
    {
      hide Flatten, IsSet, SetBits, Placed, InsertFirst, InsertLast;
      SetBitAll(readyPrimap, newpri);
      JoinPlaced(readyQueue, priority, t);
      if mtxmode {
        PrependIsInsertFirst(readyQueue, priority, t);
        readyQueue := readyQueue[newpri := [t] + readyQueue[newpri]];
      } else {
        AppendIsInsertLast(readyQueue, priority, t);
        readyQueue := readyQueue[newpri := readyQueue[newpri] + [t]];
      }
      readyPrimap := SetBits(readyPrimap, PrimapBit(newpri));
    }

    /** The part of change_priority for a runnable task; `pri0` are the priorities before. */
    method MoveReady(t: nat, oldpri: nat, newpri: nat, mtxmode: bool, ghost pri0: seq<nat>) returns (dspreq: bool)
      requires ReadyOk(readyQueue, pri0, readyPrimap, schedtsk)
      requires t < |pri0| && oldpri == pri0[t] < TNUM_TPRI && newpri < TNUM_TPRI && priority == pri0[t := newpri]
      requires t in Flatten(readyQueue) && NoDup(Flatten(readyQueue))
      modifies `readyQueue, `readyPrimap, `schedtsk
      ensures SchedOk()
      ensures var q := Remove(old(Flatten(readyQueue)), t);
              Flatten(readyQueue) == if mtxmode then InsertFirst(q, priority, t) else InsertLast(q, priority, t)
      ensures dspreq <==> dspflg && schedtsk != old(schedtsk)
    {
      hide Flatten, Remove, NoDup, Placed, InsertFirst, InsertLast, BitsOk;
      ghost var q0 := Flatten(readyQueue);
      HeadOfList(readyQueue, pri0);
      RemoveHead(q0, t);
      RestBehind(q0, pri0, t, newpri);
      LeaveReady(t, oldpri, newpri, pri0);
      InsertFirstHead(Flatten(readyQueue), priority, t);
      InsertLastHead(Flatten(readyQueue), priority, t);
      JoinReady(t, newpri, mtxmode);
      if schedtsk == Some(t) {
        if newpri >= oldpri {
          BitmapEmpty(readyQueue, readyPrimap);
          var s := SearchSchedtsk();
          schedtsk := Some(s);
          return schedtsk != Some(t) && dspflg;
        }
      } else {
        if (if mtxmode then newpri <= Pri(priority, schedtsk.value) else newpri < Pri(priority, schedtsk.value)) {
          schedtsk := Some(t);
          return dspflg;
        }
      }
      return false;
    }

    /** change_priority. */
    method ChangePriority(t: nat, newpri: nat, mtxmode: bool) returns (dspreq: bool)
      requires SchedOk() && Shape(Abs()) && t < |tstat| && newpri < TNUM_TPRI
      requires tstat[t].Runnable? ==> t in Flatten(readyQueue) && NoDup(Flatten(readyQueue))
      requires !tstat[t].Runnable? ==> t !in Flatten(readyQueue)
      modifies `priority, `readyQueue, `readyPrimap, `schedtsk, `waitQueue
      ensures SchedOk() && Abs() == KernelSpec.ChangePriority(old(Abs()), t, newpri, mtxmode)
      ensures dspreq <==> dspflg && schedtsk != old(schedtsk)
    {
      hide Flatten, ReadyOk, NoDup, InsertFirst, InsertLast, Remove, Shape;
      ShapeFacts(Abs(), t);
      var oldpri := priority[t];
      ghost var pri0 := priority;
      priority := priority[t := newpri];
      if tstat[t].Runnable? {
        dspreq := MoveReady(t, oldpri, newpri, mtxmode, pri0);
      } else {
        OtherPlaced(readyQueue, pri0, readyPrimap, schedtsk, t, newpri);
        if tstat[t].Waiting? && tstat[t].fac.WaitObj? && tstat[t].fac.o < |waitQueue| {
          WobjChangePriority(tstat[t].fac.o, t);
        }
        dspreq := false;
      }
    }

    /** wobj_change_priority. */
    method WobjChangePriority(o: nat, t: nat)
      requires o < |waitQueue| == |cfg.obj|
      modifies `waitQueue
      ensures waitQueue == if cfg.obj[o].tpri
                           then old(waitQueue)[o := InsertLast(Remove(old(waitQueue)[o], t), priority, t)]
                           else old(waitQueue)
    {
      if cfg.obj[o].tpri {
        waitQueue := waitQueue[o := Remove(waitQueue[o], t)];
        QueueInsertTpri(o, t);
      }
    }

    /** queue_insert_tpri: in front of the first task of a lower priority. */
    method QueueInsertTpri(o: nat, t: nat)
      requires o < |waitQueue|
      modifies `waitQueue
      ensures waitQueue == old(waitQueue)[o := InsertLast(old(waitQueue)[o], priority, t)]
    {
      var q := waitQueue[o];
      var i := PlaceTpri(q, priority, t);
      waitQueue := waitQueue[o := q[..i] + [t] + q[i..]];
    }

    /** rotate_ready_queue. */
    method RotateReadyQueue(pri: nat) returns (dspreq: bool)
      requires SchedOk() && pri < TNUM_TPRI && NoDup(Flatten(readyQueue))
      modifies `readyQueue, `schedtsk
      ensures SchedOk() && Abs() == Rotate(old(Abs()), pri)
      ensures dspreq <==> dspflg && schedtsk != old(schedtsk)
    {
      hide Flatten, IsSet, Remove, NoDup, Placed, InsertLast, FirstOf;
      ghost var rd0 := readyQueue;
      HeadIsFirstOf(readyQueue, priority, pri);
      if |readyQueue[pri]| > 0 {
        RotatedQueue(readyQueue, priority, pri);
      }
      if |readyQueue[pri]| > 1 {
        HeadOfList(readyQueue, priority) by { FlattenSplit(readyQueue, pri); }
        var entry := readyQueue[pri][0];
        readyQueue := readyQueue[pri := readyQueue[pri][1..]];
        readyQueue := readyQueue[pri := readyQueue[pri] + [entry]];
        assert readyQueue == rd0[pri := rd0[pri][1..] + [entry]];
        if schedtsk == Some(entry) {
          FirstQueue(readyQueue, pri);
          schedtsk := Some(readyQueue[pri][0]);
          return dspflg;
        }
        FirstQueue(readyQueue, Pri(priority, schedtsk.value));
      }
      return false;
    }

    /** make_active. */
    method MakeActive(t: nat) returns (dspreq: bool)
      requires SchedOk() && t < |tstat| == |priority| && priority[t] < TNUM_TPRI
      modifies `tstat, `readyQueue, `readyPrimap, `schedtsk
      ensures SchedOk() && Abs() == Activate(old(Abs()), t) && tstat == old(tstat)[t := Runnable]
      ensures dspreq <==> dspflg && schedtsk != old(schedtsk)
    {
      hide ReadyOk, Flatten, InsertLast;
      tstat := tstat[t := Runnable];
      dspreq := MakeRunnable(t);
    }

    // ----- kernel/wait.h and kernel/wait.c ----------------------------------

    /** make_non_wait. */
    method MakeNonWait(t: nat) returns (dspreq: bool)
      requires SchedOk() && t < |tstat| == |priority| && priority[t] < TNUM_TPRI && tstat[t].Waiting?
      modifies `tstat, `readyQueue, `readyPrimap, `schedtsk
      ensures SchedOk() && Abs() == Wake(old(Abs()), t) && tstat == old(tstat)[t := AfterWait(old(tstat)[t])]
      ensures dspreq <==> dspflg && schedtsk != old(schedtsk)
    {
      hide ReadyOk, Flatten, InsertLast;
      if !tstat[t].susp {
        tstat := tstat[t := Runnable];
        dspreq := MakeRunnable(t);
      } else {
        tstat := tstat[t := Suspended];
        dspreq := false;
      }
    }

    /** wait_dequeue_wobj. */
    method WaitDequeueWobj(t: nat)
      requires t < |tstat|
      modifies `waitQueue
      ensures Abs() == Unlink(old(Abs()), t)
    {
      hide Flatten;
      match tstat[t]
      case Waiting(WaitObj(o), _) =>
        if o < |waitQueue| {
          waitQueue := waitQueue[o := Remove(waitQueue[o], t)];
        }
      case _ =>
    }

    /** wait_dequeue_tmevtb. */
    method WaitDequeueTmevtb(t: nat)
      requires TimeOk() && CbacksOk() && t < |winfo| && (winfo[t].Timer? <==> Tsk(t) in tm.ev)
      modifies tm, tm.heap
      ensures TimeOk() && CbacksOk() && Abs() == Disarm(old(Abs()), t)
    {
      hide Flatten, BlockSet, Period.Floor;
      if winfo[t].Timer? {
        tm.Delete(Tsk(t));
      } else {
        assert tm.ev - {Tsk(t)} == tm.ev;
      }
    }

    /** What a waiting task needs to be woken. */
    ghost predicate Wakeable(t: nat)
      reads this, tm
    {
      && t < |tstat| == |priority| == |winfo| && priority[t] < TNUM_TPRI
      && tstat[t].Waiting? && (winfo[t].Timer? <==> Tsk(t) in tm.ev)
    }

    /** wait_complete, and the like with another result. */
    method WaitComplete(t: nat, er: Er) returns (dspreq: bool)
      requires Rep() && Wakeable(t)
      modifies `tstat, `winfo, `readyQueue, `readyPrimap, `schedtsk, tm, tm.heap
      ensures Rep() && Abs() == Finish(old(Abs()), t, er)
      ensures dspreq <==> dspflg && schedtsk != old(schedtsk)
    {
      hide ReadyOk, Flatten, TimeOk, CbacksOk, Wake;
      WaitDequeueTmevtb(t);
      dspreq := EndOfWait(t, er);
    }

    /** The last part of every way to wake a task: the result, and make_non_wait. */
    method EndOfWait(t: nat, er: Er) returns (dspreq: bool)
      requires Rep() && t < |tstat| == |priority| == |winfo| && priority[t] < TNUM_TPRI && tstat[t].Waiting?
      requires Tsk(t) !in tm.ev
      modifies `tstat, `winfo, `readyQueue, `readyPrimap, `schedtsk
      ensures Rep() && Abs() == Wake(old(Abs()).(t := old(Abs()).t.(winfo := old(winfo)[t := Wercd(er)])), t)
      ensures dspreq <==> dspflg && schedtsk != old(schedtsk)
    {
      hide ReadyOk, Flatten, TimeOk, Wake;
      winfo := winfo[t := Wercd(er)];
      dspreq := MakeNonWait(t);
    }

    /** wait_release. */
    method WaitRelease(t: nat) returns (dspreq: bool)
      requires Rep() && Wakeable(t)
      modifies `tstat, `winfo, `readyQueue, `readyPrimap, `schedtsk, `waitQueue, tm, tm.heap
      ensures Rep() && Abs() == EndWait(old(Abs()), t, E_RLWAI)
      ensures dspreq <==> dspflg && schedtsk != old(schedtsk)
    {
      hide ReadyOk, Flatten, TimeEvents.Valid, BlockSet, TimeOk, CbacksOk;
      WaitDequeueWobj(t);
      dspreq := WaitComplete(t, E_RLWAI);
    }

    /** make_wait: the running task `r` gets its new state and leaves the ready queue. */
    method LeaveToWait(r: nat, fac: Factor)
      requires Rep() && r < |priority| == |tstat| && priority[r] < TNUM_TPRI
      requires r in Flatten(readyQueue) && NoDup(Flatten(readyQueue)) && Tsk(r) !in tm.ev
      modifies `tstat, `readyQueue, `readyPrimap, `schedtsk
      ensures Rep() && tstat == old(tstat)[r := Waiting(fac, false)]
      ensures Flatten(readyQueue) == Remove(old(Flatten(readyQueue)), r)
    {
      hide ReadyOk, Flatten, TimeOk, NoDup, Remove;
      tstat := tstat[r := Waiting(fac, false)];
      var _ := MakeNonRunnable(r);
    }

    /** make_wait and make_wait_tmout: the running task `r` gets its new state, leaves the
        ready queue and starts its timer. */
    method MakeWait(r: nat, fac: Factor, arm: Option<nat>)
      requires Rep() && r < |priority| == |winfo| == |tstat| == |cfg.ipri| && priority[r] < TNUM_TPRI
      requires r in Flatten(readyQueue) && NoDup(Flatten(readyQueue))
      requires Tsk(r) !in tm.ev && (arm.Some? ==> arm.value <= TMAX_RELTIM)
      modifies `tstat, `winfo, `readyQueue, `readyPrimap, `schedtsk, tm, tm.heap
      ensures Rep()
      ensures Flatten(readyQueue) == Remove(old(Flatten(readyQueue)), r)
      ensures tstat == old(tstat)[r := Waiting(fac, false)]
      ensures winfo == old(winfo)[r := if arm.Some? then Timer else NoTimer]
      ensures tm.n == old(tm.n) && cfg.per.Ok()
      ensures tm.ev == if arm.Some? then old(tm.ev)[Tsk(r) := cfg.per.Ceil(tm.n + 1) + arm.value] else old(tm.ev)
    {
      hide ReadyOk, Flatten, SchedOk, TimeEvents.Valid, BlockSet, NoDup, Remove, Period.Ok, Period.Ceil, Period.Floor;
      TaskBlock(cfg, r);
      PeriodOk();
      LeaveToWait(r, fac);
      if arm.Some? {
        winfo := winfo[r := Timer];
        tm.Enqueue(Tsk(r), arm.value, if fac.WaitDly? then Cback.WaitTmoutOk else Cback.WaitTmout);
      } else {
        winfo := winfo[r := NoTimer];
      }
    }

    lemma PeriodOk()
      requires TimeOk()
      ensures cfg.per.Ok()
    {
    }

    /** wobj_queue_insert. */
    method WobjQueueInsert(o: nat, r: nat)
      requires o < |waitQueue| == |cfg.obj|
      modifies `waitQueue
      ensures var q := old(waitQueue)[o];
              waitQueue == old(waitQueue)[o := if cfg.obj[o].tpri then InsertLast(q, priority, r) else q + [r]]
    {
      if cfg.obj[o].tpri {
        QueueInsertTpri(o, r);
      } else {
        waitQueue := waitQueue[o := waitQueue[o] + [r]];
      }
    }

    /** wobj_make_wait and wobj_make_wait_tmout, or make_wait alone if there is no object. */
    method StartWait(r: nat, fac: Factor, arm: Option<nat>)
      requires Rep() && Core(Abs(), -1, {}) && r < |tstat| && tstat[r].Runnable?
      requires (fac.WaitObj? ==> fac.o < |waitQueue|) && (arm.Some? ==> arm.value <= TMAX_RELTIM)
      modifies `tstat, `winfo, `readyQueue, `readyPrimap, `schedtsk, `waitQueue, tm, tm.heap
      ensures Rep() && cfg.per.Ok() && Shape(old(Abs())) && Abs() == Block(old(Abs()), r, fac, arm)
    {
      hide Rep, Flatten, NoDup, Remove, Core, Shape, Period.Ceil, InsertLast;
      ReadyTask(Abs(), r);
      MakeWait(r, fac, arm);
      if fac.WaitObj? {
        WobjQueueInsert(fac.o, r);
      }
    }

    /** The first waiter of object `o` leaves the queue and is woken with result `er`. */
    method WakeFirst(o: nat, er: Er) returns (dspreq: bool)
      requires Rep() && Sane(Abs()) && o < |waitQueue| && waitQueue[o] != [] && Wakeable(waitQueue[o][0])
      modifies `tstat, `winfo, `readyQueue, `readyPrimap, `schedtsk, `waitQueue, tm, tm.heap
      ensures Rep() && Abs() == PopWake(old(Abs()), o, er)
      ensures dspreq <==> dspflg && schedtsk != old(schedtsk)
    {
      hide ReadyOk, Flatten, TimeOk, CbacksOk, Sane, Wake;
      var t := waitQueue[o][0];
      waitQueue := waitQueue[o := waitQueue[o][1..]];
      dspreq := WaitComplete(t, er);
    }

    /** init_wait_queue: every waiter is woken with E_DLT. */
    method InitWaitQueue(o: nat) returns (dspreq: bool)
      requires Rep() && Core(Abs(), -1, {}) && o < |waitQueue|
      modifies `tstat, `winfo, `readyQueue, `readyPrimap, `schedtsk, `waitQueue, tm, tm.heap
      ensures Rep() && Sane(old(Abs())) && Abs() == Drained(old(Abs()), o)
      ensures dspreq ==> dspflg
      ensures dspflg && !dspreq ==> schedtsk == old(schedtsk)
    {
      hide Rep, Flatten, Core, Sane, Drained;
      CoreShape(Abs());
      dspreq := false;
      while waitQueue[o] != []
        invariant Rep() && Core(Abs(), -1, {}) && |waitQueue| == |old(waitQueue)|
        invariant Sane(Abs()) && Drained(Abs(), o) == Drained(old(Abs()), o)
        invariant dspreq ==> dspflg
        invariant dspflg && !dspreq ==> schedtsk == old(schedtsk)
        decreases |waitQueue[o]|
      {
        var b := DropFirst(o);
        if b {
          dspreq := true;
        }
      }
      NothingToDrain(Abs(), o);
    }

    /** The first waiter is woken with E_DLT. */
    method DropFirst(o: nat) returns (dspreq: bool)
      requires Rep() && Core(Abs(), -1, {}) && o < |waitQueue| && waitQueue[o] != []
      modifies `tstat, `winfo, `readyQueue, `readyPrimap, `schedtsk, `waitQueue, tm, tm.heap
      ensures Rep() && Core(Abs(), -1, {}) && |waitQueue| == |old(waitQueue)| && |waitQueue[o]| < |old(waitQueue)[o]|
      ensures Sane(old(Abs())) && Sane(Abs()) && Drained(Abs(), o) == Drained(old(Abs()), o)
      ensures dspreq <==> dspflg && schedtsk != old(schedtsk)
    {
      hide Rep, Flatten, Core, Sane, PopWake, Drained;
      ghost var k := Abs();
      WaiterFacts(k, o);
      dspreq := WakeFirst(o, E_DLT);
      DrainStep(k, o);
    }

    // ----- kernel/mutex.c ---------------------------------------------------

    /** mutex_check_ceilpri. */
    method MutexCheckCeilpri(t: nat, bpri: nat) returns (ok: bool)
      requires Shape(Abs()) && t < |tstat|
      ensures ok == CheckCeil(Abs(), t, bpri)
    {
      var q := mutexQueue[t];
      var i := 0;
      while i < |q|
        invariant 0 <= i <= |q|
        invariant forall j :: 0 <= j < i ==> cfg.Ceil(q[j]).Some? ==> cfg.Ceil(q[j]).value <= bpri
      {
        if cfg.Ceil(q[i]).Some? && bpri < cfg.Ceil(q[i]).value {
          assert q[i] in q;
          return false;
        }
        i := i + 1;
      }
      if tstat[t].Waiting? && tstat[t].fac.WaitObj? {
        var o := tstat[t].fac.o;
        if cfg.Ceil(o).Some? && bpri < cfg.Ceil(o).value {
          return false;
        }
      }
      return true;
    }

    /** mutex_scan_ceilmtx. */
    method MutexScanCeilmtx(t: nat) returns (found: bool)
      requires t < |mutexQueue|
      ensures found == HasCeil(cfg, mutexQueue[t])
    {
      var q := mutexQueue[t];
      var i := 0;
      while i < |q|
        invariant 0 <= i <= |q|
        invariant forall j :: 0 <= j < i ==> cfg.Ceil(q[j]) == None
      {
        if cfg.Ceil(q[i]).Some? {
          assert q[i] in q;
          return true;
        }
        i := i + 1;
      }
      return false;
    }

    /** mutex_calc_priority. */
    method MutexCalcPriority(t: nat) returns (pri: nat)
      requires t < |mutexQueue| == |bpriority|
      ensures pri == CalcPri(cfg, mutexQueue[t], bpriority[t])
    {
      var q := mutexQueue[t];
      pri := bpriority[t];
      var i := 0;
      while i < |q|
        invariant 0 <= i <= |q|
        invariant pri == CalcPri(cfg, q[..i], bpriority[t])
      {
        CalcSnoc(cfg, q[..i], q[i], bpriority[t]);
        assert q[..i + 1] == q[..i] + [q[i]];
        if cfg.Ceil(q[i]).Some? && cfg.Ceil(q[i]).value < pri {
          pri := cfg.Ceil(q[i]).value;
        }
        i := i + 1;
      }
      assert q[..|q|] == q;
    }

    /** The task is in the ready list exactly if it is runnable, and there once. */
    ghost predicate Queued(t: nat)
      reads this
    {
      t < |tstat| && NoDup(Flatten(readyQueue)) && (tstat[t].Runnable? <==> t in Flatten(readyQueue))
    }

    /** mutex_drop_priority. */
    method MutexDropPriority(t: nat, oldpri: nat) returns (dspreq: bool)
      requires SchedOk() && Shape(Abs()) && Queued(t)
      modifies `priority, `readyQueue, `readyPrimap, `schedtsk, `waitQueue
      ensures SchedOk() && Abs() == DropPri(old(Abs()), t, oldpri)
      ensures dspreq <==> dspflg && schedtsk != old(schedtsk)
    {
      hide ReadyOk, Flatten, NoDup, KernelSpec.ChangePriority, CalcPri;
      if oldpri == priority[t] {
        var newpri := MutexCalcPriority(t);
        CalcBound(cfg, Abs(), mutexQueue[t], t);
        if newpri != priority[t] {
          dspreq := ChangePriority(t, newpri, true);
          return;
        }
      }
      return false;
    }

    /** mutex_acquire, with mutex_raise_priority. */
    method MutexAcquire(t: nat, m: nat) returns (dspreq: bool)
      requires SchedOk() && Shape(Abs()) && CfgOk(cfg) && Queued(t) && m < |loctsk|
      modifies `mutexQueue, `loctsk, `priority, `readyQueue, `readyPrimap, `schedtsk, `waitQueue
      ensures SchedOk() && Abs() == Acquire(old(Abs()), t, m)
      ensures dspreq <==> dspflg && schedtsk != old(schedtsk)
    {
      hide ReadyOk, Flatten, NoDup, KernelSpec.ChangePriority;
      loctsk := loctsk[m := Some(t)];
      mutexQueue := mutexQueue[t := [m] + mutexQueue[t]];
      if cfg.Ceil(m).Some? && cfg.Ceil(m).value < priority[t] {
        dspreq := ChangePriority(t, cfg.Ceil(m).value, true);
        return;
      }
      return false;
    }

    /** The first half of unl_mtx, and the second of ini_mtx. */
    method MutexGiveUp(t: nat, m: nat) returns (dspreq: bool)
      requires Rep() && Shape(Abs()) && Queued(t) && m < |waitQueue|
      modifies `mutexQueue, `priority, `readyQueue, `readyPrimap, `schedtsk, `waitQueue
      ensures Rep() && Abs() == GiveUp(old(Abs()), t, m)
      ensures dspreq <==> dspflg && schedtsk != old(schedtsk)
    {
      hide ReadyOk, Flatten, TimeOk, CbacksOk, NoDup, DropPri;
      mutexQueue := mutexQueue[t := Remove(mutexQueue[t], m)];
      if cfg.Ceil(m).Some? {
        dspreq := MutexDropPriority(t, cfg.Ceil(m).value);
        return;
      }
      return false;
    }

    /** mutex_release. */
    method MutexRelease(m: nat) returns (dspreq: bool)
      requires Rep() && Sane(Abs()) && m < |waitQueue|
      requires waitQueue[m] != [] ==> Wakeable(waitQueue[m][0]) && waitQueue[m][0] !in Flatten(readyQueue)
      modifies `tstat, `winfo, `readyQueue, `readyPrimap, `schedtsk, `waitQueue, `loctsk, `mutexQueue, `priority
      modifies tm, tm.heap
      ensures Rep() && Abs() == HandOver(old(Abs()), m)
      ensures dspreq <==> dspflg && schedtsk != old(schedtsk)
    {
      hide ReadyOk, Flatten, TimeOk, CbacksOk, Shape, WqOk, CfgOk, HeldOk, NoDup, Wake;
      ShapeLengths(Abs());
      if waitQueue[m] == [] {
        loctsk := loctsk[m := None];
        return false;
      }
      var t := waitQueue[m][0];
      waitQueue := waitQueue[m := waitQueue[m][1..]];
      MutexPass(t, m);
      dspreq := WaitComplete(t, E_OK);
    }

    /** The part of mutex_release that makes a task, which is not ready, the owner. */
    method MutexPass(t: nat, m: nat)
      requires SchedOk() && t < |mutexQueue| == |priority| && m < |loctsk| && t !in Flatten(readyQueue)
      modifies `loctsk, `mutexQueue, `priority
      ensures SchedOk()
      ensures loctsk == old(loctsk)[m := Some(t)] && mutexQueue == old(mutexQueue)[t := old(mutexQueue)[t] + [m]]
      ensures priority == old(priority)[t := Lower(old(priority)[t], cfg.Ceil(m))]
    {
      hide ReadyOk, Flatten;
      loctsk := loctsk[m := Some(t)];
      mutexQueue := mutexQueue[t := mutexQueue[t] + [m]];
      if cfg.Ceil(m).Some? && cfg.Ceil(m).value < priority[t] {
        OtherPlaced(readyQueue, priority, readyPrimap, schedtsk, t, cfg.Ceil(m).value);
        priority := priority[t := cfg.Ceil(m).value];
      } else {
        assert priority[t := priority[t]] == priority;
      }
    }

    /** mutex_release_all, for a task that is in no queue. */
    method MutexReleaseAll(t: nat) returns (dspreq: bool)
      requires Rep() && Core(Abs(), t, {}) && t < |tstat|
      modifies `tstat, `winfo, `readyQueue, `readyPrimap, `schedtsk, `waitQueue, `loctsk, `mutexQueue, `priority
      modifies tm, tm.heap
      ensures Rep() && Sane(old(Abs())) && Abs() == ReleaseAll(old(Abs()), t)
      ensures dspreq ==> dspflg
      ensures dspflg && !dspreq ==> schedtsk == old(schedtsk)
    {
      hide ReadyOk, Flatten, TimeOk, CbacksOk, Core, Sane, HandOver, Released, Releasing, Bare;
      ReleaseStart(Abs(), t);
      dspreq := false;
      while mutexQueue[t] != []
        invariant Rep() && t < |mutexQueue| && Releasing(Abs(), t)
        invariant Sane(old(Abs())) && Released(Abs(), t) == Released(old(Abs()), t)
        invariant dspreq ==> dspflg
        invariant dspflg && !dspreq ==> schedtsk == old(schedtsk)
        decreases |mutexQueue[t]|
      {
        ghost var k := Abs();
        var m := mutexQueue[t][0];
        ReleaseRound(k, t);
        mutexQueue := mutexQueue[t := mutexQueue[t][1..]];
        var b := MutexRelease(m);
        if b {
          dspreq := true;
        }
      }
      ReleaseEnd(Abs(), t);
    }

    // ----- kernel/task_manage.c ---------------------------------------------

    /** make_dormant, for a task that is in no queue. */
    method MakeDormant(t: nat)
      requires Rep() && Shape(Abs()) && CfgOk(cfg) && t < |tstat| && t !in Flatten(readyQueue) && Tsk(t) !in tm.ev
      modifies `tstat, `bpriority, `priority, `flag
      ensures Rep() && Abs() == KernelSpec.MakeDormant(old(Abs()), t)
    {
      hide ReadyOk, Flatten, TimeOk, Shape, CfgOk;
      ShapeLengths(Abs());
      SameTables(Abs());
      OtherPlaced(readyQueue, priority, readyPrimap, schedtsk, t, cfg.ipri[t]);
      tstat := tstat[t := Dormant];
      bpriority := bpriority[t := cfg.ipri[t]];
      priority := priority[t := cfg.ipri[t]];
      flag := flag[t := Flags(flag[t].actque, false, false)];
    }

    /** What ext_tsk and ter_tsk have in common, once the task is in no queue. */
    method TerminateTask(t: nat) returns (dspreq: bool)
      requires Rep() && Core(Abs(), t, {}) && t < |tstat|
      modifies `tstat, `winfo, `readyQueue, `readyPrimap, `schedtsk, `waitQueue, `loctsk, `mutexQueue, `priority
      modifies `bpriority, `flag, tm, tm.heap
      ensures Rep() && Sane(old(Abs())) && Abs() == Terminate(old(Abs()), t)
      ensures dspreq ==> dspflg
      ensures dspflg && !dspreq ==> schedtsk == old(schedtsk)
    {
      hide ReadyOk, Flatten, TimeOk, CbacksOk, Core, Sane, ReleaseAll, Shape, KernelSpec.Restart;
      TerminateFacts(Abs(), t);
      dspreq := MutexReleaseAll(t);
      MakeDormant(t);
      var b := Restart(t);
      if b {
        dspreq := true;
      }
    }

    /** A terminated task starts again if its activation is queued. */
    method Restart(t: nat) returns (dspreq: bool)
      requires Rep() && Shape(Abs()) && t < |tstat| == |flag| == |priority| && priority[t] < TNUM_TPRI
      requires tstat[t].Dormant?
      modifies `tstat, `flag, `readyQueue, `readyPrimap, `schedtsk
      ensures Rep() && Abs() == KernelSpec.Restart(old(Abs()), t)
      ensures dspreq <==> dspflg && schedtsk != old(schedtsk)
    {
      hide ReadyOk, Flatten, TimeOk, Shape, InsertLast;
      if flag[t].actque {
        flag := flag[t := flag[t].(actque := false)];
        dspreq := MakeActive(t);
        return;
      }
      return false;
    }

    // The service calls.  Each answers whether a dispatch is needed at its end; what the
    // calls of tasks and of handlers do with the answer is in `TaskCall` and `IntrCall`.

    /** act_tsk and iact_tsk. */
    method ActTsk(t: nat) returns (ret: Ret, dspreq: bool)
      requires Rep() && Core(Abs(), -1, {}) && t < |tstat|
      modifies `tstat, `flag, `readyQueue, `readyPrimap, `schedtsk
      ensures Rep() && Shape(old(Abs())) && (Abs(), ret) == DoActTsk(old(Abs()), t)
      ensures dspreq <==> dspflg && schedtsk != old(schedtsk)
    {
      hide ReadyOk, Flatten, TimeOk, Core, Shape, InsertLast;
      TaskFacts(Abs(), t);
      if tstat[t].Dormant? {
        dspreq := MakeActive(t);
        ret := Ret(E_OK);
      } else if !flag[t].actque {
        flag := flag[t := flag[t].(actque := true)];
        ret, dspreq := Ret(E_OK), false;
      } else {
        ret, dspreq := Ret(E_QOVR), false;
      }
    }

    /** The first part of ext_tsk makes dispatching possible. */
    method AllowDispatch()
      requires Rep()
      modifies `disdsp, `ipmflg, `dspflg
      ensures Rep() && dspflg && Abs() == old(Abs()).(c := old(Abs()).c.(disdsp := false, ipmflg := true))
    {
      hide ReadyOk, Flatten, TimeOk, CbacksOk;
      if disdsp {
        disdsp := false;
      }
      if !ipmflg {
        ipmflg := true;
      }
      dspflg := true;
    }

    /** ext_tsk, up to exit_and_dispatch. */
    method ExtTsk() returns (ret: Ret, dspreq: bool)
      requires Rep() && Core(Abs(), -1, {}) && runtsk.Some? && runtsk.value < |tstat| && tstat[runtsk.value].Runnable?
      modifies `disdsp, `ipmflg, `dspflg
      modifies `tstat, `winfo, `readyQueue, `readyPrimap, `schedtsk, `waitQueue, `loctsk, `mutexQueue, `priority
      modifies `bpriority, `flag, tm, tm.heap
      ensures Rep() && Sane(old(Abs())) && (Abs(), ret) == DoExtTsk(old(Abs()), runtsk.value)
      ensures dspreq && dspflg
    {
      hide ReadyOk, Flatten, TimeOk, CbacksOk, Core, Sane, Terminate, Remove, NoDup, Shape;
      var r := runtsk.value;
      CoreShape(Abs());
      AllowDispatch();
      CoreContext(old(Abs()), Abs().c);
      DetachRunner(Abs(), r);
      TaskFacts(Abs(), r);
      var _ := MakeNonRunnable(r);
      var _ := TerminateTask(r);
      ret, dspreq := Ret(E_OK), true;
    }

    /** ter_tsk. */
    method TerTsk(t: nat) returns (ret: Ret, dspreq: bool)
      requires Rep() && Core(Abs(), -1, {}) && runtsk.Some? && t < |tstat|
      requires dspflg ==> schedtsk == runtsk
      modifies `tstat, `winfo, `readyQueue, `readyPrimap, `schedtsk, `waitQueue, `loctsk, `mutexQueue, `priority
      modifies `bpriority, `flag, tm, tm.heap
      ensures Rep() && Sane(old(Abs())) && (Abs(), ret) == DoTerTsk(old(Abs()), runtsk.value, t)
      ensures dspreq ==> dspflg
      ensures dspflg && !dspreq ==> schedtsk == runtsk
    {
      hide ReadyOk, Flatten, TimeOk, CbacksOk, Core, Sane, Terminate, KernelSpec.Detach;
      CoreShape(Abs());
      if runtsk == Some(t) {
        return Ret(E_ILUSE), false;
      }
      if tstat[t].Dormant? {
        return Ret(E_OBJ), false;
      }
      DetachCore(Abs(), t);
      Detach(t);
      dspreq := TerminateTask(t);
      ret := Ret(E_OK);
    }

    /** The part of ter_tsk that takes the task out of its queues. */
    method Detach(t: nat)
      requires Rep() && Core(Abs(), -1, {}) && t < |tstat| && runtsk != Some(t)
      requires dspflg ==> schedtsk == runtsk
      modifies `readyQueue, `readyPrimap, `schedtsk, `waitQueue, tm, tm.heap
      ensures Rep() && Shape(old(Abs())) && Abs() == KernelSpec.Detach(old(Abs()), t)
      ensures dspflg ==> schedtsk == runtsk
    {
      hide ReadyOk, Flatten, TimeOk, CbacksOk, Core, Shape, Remove, Unlink;
      TaskFacts(Abs(), t);
      if tstat[t].Runnable? {
        var _ := MakeNonRunnable(t);
      } else if tstat[t].Waiting? {
        WaitDequeueWobj(t);
        WaitDequeueTmevtb(t);
      }
    }

    /** chg_pri. */
    method ChgPri(t: nat, tskpri: Option<nat>) returns (ret: Ret, dspreq: bool)
      requires Rep() && Core(Abs(), -1, {}) && runtsk.Some? && runtsk.value < |tstat| && t < |tstat|
      modifies `bpriority, `priority, `readyQueue, `readyPrimap, `schedtsk, `waitQueue
      ensures Rep() && Sane(old(Abs())) && (Abs(), ret) == DoChgPri(old(Abs()), runtsk.value, t, tskpri)
      ensures dspreq <==> dspflg && schedtsk != old(schedtsk)
    {
      hide ReadyOk, Flatten, TimeOk, CbacksOk, Core, Sane, KernelSpec.ChangePriority, HasCeil, CheckCeil, NoDup, Shape;
      CoreShape(Abs());
      TaskFacts(Abs(), t);
      MinPri(Abs(), runtsk.value, t);
      if tskpri.Some? && tskpri.value >= TNUM_TPRI {
        return Ret(E_PAR), false;
      }
      if tstat[t].Dormant? {
        return Ret(E_OBJ), false;
      }
      var newbpri := if tskpri.Some? then tskpri.value else cfg.ipri[t];
      if newbpri < cfg.minpri[runtsk.value] {
        return Ret(E_ILUSE), false;
      }
      var ok := MutexCheckCeilpri(t, newbpri);
      if !ok {
        return Ret(E_ILUSE), false;
      }
      dspreq := Rebase(t, newbpri);
      ret := Ret(E_OK);
    }

    /** The part of chg_pri that sets the new base priority. */
    method Rebase(t: nat, newbpri: nat) returns (dspreq: bool)
      requires Rep() && Core(Abs(), -1, {}) && t < |tstat| && newbpri < TNUM_TPRI
      modifies `bpriority, `priority, `readyQueue, `readyPrimap, `schedtsk, `waitQueue
      ensures Rep() && Shape(old(Abs())) && t < |bpriority|
      ensures var k1 := old(Abs()).(t := old(Abs()).t.(bpri := old(bpriority)[t := newbpri]));
              && Shape(k1)
              && Abs() == if HasCeil(cfg, mutexQueue[t]) then k1 else KernelSpec.ChangePriority(k1, t, newbpri, false)
      ensures dspreq <==> dspflg && schedtsk != old(schedtsk)
    {
      hide ReadyOk, Flatten, TimeOk, CbacksOk, Core, KernelSpec.ChangePriority, HasCeil, NoDup, Shape;
      TaskFacts(Abs(), t);
      RebaseShape(Abs(), t, newbpri);
      bpriority := bpriority[t := newbpri];
      var ceil := MutexScanCeilmtx(t);
      if !ceil {
        dspreq := ChangePriority(t, newbpri, false);
        return;
      }
      return false;
    }

    // ----- kernel/task_sync.c -----------------------------------------------

    /** The running task may block: the facts its wait needs. */
    ghost predicate Running()
      reads this, tm
    {
      && Core(Abs(), -1, {})
      && runtsk.Some? && runtsk.value < |tstat| && tstat[runtsk.value].Runnable?
    }

    /** slp_tsk (with TMO_FEVR) and tslp_tsk. */
    method SlpTsk(tmo: Tmo) returns (ret: Ret, dspreq: bool)
      requires Rep() && Running()
      modifies `tstat, `winfo, `flag, `readyQueue, `readyPrimap, `schedtsk, `waitQueue, tm, tm.heap
      ensures Rep() && Sane(old(Abs())) && (Abs(), ret) == DoSlpTsk(old(Abs()), runtsk.value, tmo)
      ensures dspreq ==> dspflg
      ensures !dspreq ==> schedtsk == old(schedtsk)
    {
      hide ReadyOk, Flatten, TimeOk, CbacksOk, Core, Sane, Block, Shape;
      CoreShape(Abs());
      TaskFacts(Abs(), runtsk.value);
      var r := runtsk.value;
      if !dspflg {
        return Ret(E_CTX), false;
      }
      if tmo < TMO_FEVR {
        return Ret(E_PAR), false;
      }
      if flag[r].wupque {
        flag := flag[r := flag[r].(wupque := false)];
        return Ret(E_OK), false;
      }
      if tmo == TMO_POL {
        return Ret(E_TMOUT), false;
      }
      if flag[r].waifbd {
        return Ret(E_RLWAI), false;
      }
      StartWait(r, WaitSlp, ArmOf(tmo));
      ret, dspreq := Blocks, true;
    }

    /** dly_tsk. */
    method DlyTsk(d: nat) returns (ret: Ret, dspreq: bool)
      requires Rep() && Running()
      modifies `tstat, `winfo, `readyQueue, `readyPrimap, `schedtsk, `waitQueue, tm, tm.heap
      ensures Rep() && Sane(old(Abs())) && (Abs(), ret) == DoDlyTsk(old(Abs()), runtsk.value, d)
      ensures dspreq ==> dspflg
      ensures !dspreq ==> schedtsk == old(schedtsk)
    {
      hide ReadyOk, Flatten, TimeOk, CbacksOk, Core, Sane, Block, Shape;
      CoreShape(Abs());
      TaskFacts(Abs(), runtsk.value);
      if !dspflg {
        return Ret(E_CTX), false;
      }
      if d > TMAX_RELTIM {
        return Ret(E_PAR), false;
      }
      if flag[runtsk.value].waifbd {
        return Ret(E_RLWAI), false;
      }
      StartWait(runtsk.value, WaitDly, Some(d));
      ret, dspreq := Blocks, true;
    }

    /** wup_tsk and iwup_tsk. */
    method WupTsk(t: nat) returns (ret: Ret, dspreq: bool)
      requires Rep() && Core(Abs(), -1, {}) && t < |tstat|
      modifies `tstat, `winfo, `flag, `readyQueue, `readyPrimap, `schedtsk, `waitQueue, tm, tm.heap
      ensures Rep() && Shape(old(Abs())) && (Abs(), ret) == DoWupTsk(old(Abs()), t)
      ensures dspreq <==> dspflg && schedtsk != old(schedtsk)
    {
      hide ReadyOk, Flatten, TimeOk, CbacksOk, Core, Shape, Wake;
      TaskFacts(Abs(), t);
      if tstat[t].Dormant? {
        return Ret(E_OBJ), false;
      }
      if tstat[t].Waiting? && tstat[t].fac.WaitSlp? {
        dspreq := WaitComplete(t, E_OK);
        return Ret(E_OK), dspreq;
      }
      if !flag[t].wupque {
        flag := flag[t := flag[t].(wupque := true)];
        return Ret(E_OK), false;
      }
      return Ret(E_QOVR), false;
    }

    /** rel_wai and irel_wai. */
    method RelWai(t: nat) returns (ret: Ret, dspreq: bool)
      requires Rep() && Core(Abs(), -1, {}) && t < |tstat|
      modifies `tstat, `winfo, `readyQueue, `readyPrimap, `schedtsk, `waitQueue, tm, tm.heap
      ensures Rep() && Shape(old(Abs())) && (Abs(), ret) == DoRelWai(old(Abs()), t)
      ensures dspreq <==> dspflg && schedtsk != old(schedtsk)
    {
      hide ReadyOk, Flatten, TimeOk, CbacksOk, Core, Shape, EndWait;
      TaskFacts(Abs(), t);
      if !tstat[t].Waiting? {
        return Ret(E_OBJ), false;
      }
      dspreq := WaitRelease(t);
      ret := Ret(E_OK);
    }

    /** sus_tsk. */
    method SusTsk(t: nat) returns (ret: Ret, dspreq: bool)
      requires Rep() && Core(Abs(), -1, {}) && runtsk.Some? && t < |tstat|
      modifies `tstat, `readyQueue, `readyPrimap, `schedtsk
      ensures Rep() && Shape(old(Abs())) && (Abs(), ret) == DoSusTsk(old(Abs()), runtsk.value, t)
      ensures dspreq <==> dspflg && schedtsk != old(schedtsk)
    {
      hide ReadyOk, Flatten, TimeOk, Core, Shape, Remove, NoDup, SchedOk;
      TaskFacts(Abs(), t);
      if runtsk == Some(t) && !dspflg {
        return Ret(E_CTX), false;
      }
      match tstat[t]
      case Dormant => return Ret(E_OBJ), false;
      case Runnable =>
        tstat := tstat[t := Suspended];
        dspreq := MakeNonRunnable(t);
        ret := Ret(E_OK);
      case Suspended => return Ret(E_QOVR), false;
      case Waiting(f, susp) =>
        if susp {
          return Ret(E_QOVR), false;
        }
        tstat := tstat[t := Waiting(f, true)];
        ret, dspreq := Ret(E_OK), false;
    }

    /** rsm_tsk. */
    method RsmTsk(t: nat) returns (ret: Ret, dspreq: bool)
      requires Rep() && Core(Abs(), -1, {}) && t < |tstat|
      modifies `tstat, `readyQueue, `readyPrimap, `schedtsk
      ensures Rep() && Shape(old(Abs())) && (Abs(), ret) == DoRsmTsk(old(Abs()), t)
      ensures dspreq <==> dspflg && schedtsk != old(schedtsk)
    {
      hide ReadyOk, Flatten, TimeOk, Core, Shape, InsertLast, NoDup, SchedOk;
      TaskFacts(Abs(), t);
      match tstat[t]
      case Suspended =>
        tstat := tstat[t := Runnable];
        dspreq := MakeRunnable(t);
        ret := Ret(E_OK);
      case Waiting(f, true) =>
        tstat := tstat[t := Waiting(f, false)];
        ret, dspreq := Ret(E_OK), false;
      case _ => return Ret(E_OBJ), false;
    }

    /** dis_wai and idis_wai. */
    method DisWai(t: nat, texmask: bool) returns (ret: Ret)
      requires Rep() && Shape(Abs()) && t < |tstat|
      modifies `flag
      ensures Rep() && (Abs(), ret) == DoDisWai(old(Abs()), t, texmask)
    {
      hide ReadyOk, Flatten, TimeOk, CbacksOk, Shape;
      SameTables(Abs());
      if tstat[t].Dormant? {
        return Ret(E_OBJ);
      }
      if flag[t].waifbd {
        return Ret(E_QOVR);
      }
      if texmask {
        flag := flag[t := flag[t].(waifbd := true)];
        return Ret(E_OK);
      }
      return Ret(E_OBJ);
    }

    /** ena_wai and iena_wai. */
    method EnaWai(t: nat) returns (ret: Ret)
      requires Rep() && Shape(Abs()) && t < |tstat|
      modifies `flag
      ensures Rep() && (Abs(), ret) == DoEnaWai(old(Abs()), t)
    {
      hide ReadyOk, Flatten, TimeOk, CbacksOk, Shape;
      SameTables(Abs());
      if tstat[t].Dormant? || !flag[t].waifbd {
        return Ret(E_OBJ);
      }
      flag := flag[t := flag[t].(waifbd := false)];
      return Ret(E_OK);
    }

    // ----- Service calls of kernel/mutex.c and kernel/semaphore.c ------------

    /** The running task takes a free mutex: if it was the highest task, it still is. */
    method TakeFree(m: nat)
      requires Rep() && Running() && cfg.IsMtx(m)
      modifies `readyQueue, `readyPrimap, `schedtsk, `waitQueue, `mutexQueue, `loctsk, `priority
      ensures Rep() && Shape(old(Abs())) && m < |old(waitQueue)| && Abs() == Acquire(old(Abs()), runtsk.value, m)
      ensures old(schedtsk) == runtsk ==> schedtsk == runtsk
    {
      hide ReadyOk, Flatten, TimeOk, CbacksOk, Core, Shape, Acquire, NoDup, CfgOk, Cfg.Ceil;
      CoreShape(Abs());
      TaskFacts(Abs(), runtsk.value);
      HeadIsSched();
      if schedtsk == runtsk {
        AcquireKeepsHighest(Abs(), runtsk.value, m);
      }
      var _ := MutexAcquire(runtsk.value, m);
      HeadIsSched();
    }

    /** loc_mtx (with TMO_FEVR) and tloc_mtx. */
    method LocMtx(m: nat, tmo: Tmo) returns (ret: Ret, dspreq: bool)
      requires Rep() && Running() && cfg.IsMtx(m)
      modifies `tstat, `winfo, `readyQueue, `readyPrimap, `schedtsk, `waitQueue, `mutexQueue, `loctsk, `priority
      modifies tm, tm.heap
      ensures Rep() && Sane(old(Abs())) && m < |old(waitQueue)|
      ensures (Abs(), ret) == DoLocMtx(old(Abs()), runtsk.value, m, tmo)
      ensures ret.Blocks? <==> dspreq
      ensures dspreq ==> dspflg
      ensures !dspreq && (ret != Ret(E_OK) || old(schedtsk) == runtsk) ==> schedtsk == old(schedtsk)
    {
      hide ReadyOk, Flatten, TimeOk, CbacksOk, Core, Sane, Block, Shape, Acquire, NoDup, CfgOk, Cfg.Ceil;
      CoreShape(Abs());
      TaskFacts(Abs(), runtsk.value);
      var r := runtsk.value;
      if !dspflg {
        return Ret(E_CTX), false;
      }
      if tmo < TMO_FEVR {
        return Ret(E_PAR), false;
      }
      if cfg.Ceil(m).Some? && bpriority[r] < cfg.Ceil(m).value {
        return Ret(E_ILUSE), false;
      }
      if loctsk[m] == None {
        TakeFree(m);
        return Ret(E_OK), false;
      }
      if loctsk[m] == Some(r) {
        return Ret(E_OBJ), false;
      }
      if tmo == TMO_POL {
        return Ret(E_TMOUT), false;
      }
      if flag[r].waifbd {
        return Ret(E_RLWAI), false;
      }
      StartWait(r, WaitObj(m), ArmOf(tmo));
      ret, dspreq := Blocks, true;
    }

    /** ploc_mtx. */
    method PlocMtx(m: nat) returns (ret: Ret)
      requires Rep() && Running() && cfg.IsMtx(m)
      modifies `readyQueue, `readyPrimap, `schedtsk, `waitQueue, `mutexQueue, `loctsk, `priority
      ensures Rep() && Sane(old(Abs())) && m < |old(waitQueue)|
      ensures (Abs(), ret) == DoPlocMtx(old(Abs()), runtsk.value, m)
      ensures ret != Ret(E_OK) || old(schedtsk) == runtsk ==> schedtsk == old(schedtsk)
    {
      hide ReadyOk, Flatten, TimeOk, CbacksOk, Core, Sane, Shape, Acquire, NoDup, CfgOk, Cfg.Ceil;
      CoreShape(Abs());
      TaskFacts(Abs(), runtsk.value);
      var r := runtsk.value;
      if cfg.Ceil(m).Some? && bpriority[r] < cfg.Ceil(m).value {
        return Ret(E_ILUSE);
      }
      if loctsk[m] == None {
        TakeFree(m);
        return Ret(E_OK);
      }
      if loctsk[m] == Some(r) {
        return Ret(E_OBJ);
      }
      return Ret(E_TMOUT);
    }

    /** unl_mtx. */
    method UnlMtx(m: nat) returns (ret: Ret, dspreq: bool)
      requires Rep() && Running() && cfg.IsMtx(m)
      modifies `tstat, `winfo, `readyQueue, `readyPrimap, `schedtsk, `waitQueue, `mutexQueue, `loctsk, `priority
      modifies tm, tm.heap
      ensures Rep() && Sane(old(Abs())) && m < |old(waitQueue)|
      ensures (Abs(), ret) == DoUnlMtx(old(Abs()), runtsk.value, m)
      ensures dspreq ==> dspflg
      ensures dspflg && !dspreq ==> schedtsk == old(schedtsk)
    {
      hide Rep, Flatten, Core, Sane, Shape, GiveUp, HandOver, NoDup, CfgOk, Cfg.Ceil;
      CoreShape(Abs());
      TaskFacts(Abs(), runtsk.value);
      var r := runtsk.value;
      if loctsk[m] != Some(r) {
        return Ret(E_OBJ), false;
      }
      GivenUp(Abs(), r, m);
      dspreq := MutexGiveUp(r, m);
      var b := MutexRelease(m);
      if b {
        dspreq := true;
      }
      ret := Ret(E_OK);
    }

    /** ini_mtx. */
    method IniMtx(m: nat) returns (ret: Ret, dspreq: bool)
      requires Rep() && Running() && cfg.IsMtx(m)
      modifies `tstat, `winfo, `readyQueue, `readyPrimap, `schedtsk, `waitQueue, `mutexQueue, `loctsk, `priority
      modifies tm, tm.heap
      ensures Rep() && Sane(old(Abs())) && m < |old(waitQueue)|
      ensures (Abs(), ret) == DoIniMtx(old(Abs()), m)
      ensures dspreq ==> dspflg
      ensures dspflg && !dspreq ==> schedtsk == old(schedtsk)
    {
      hide ReadyOk, Flatten, TimeOk, CbacksOk, Core, Sane, Shape, GiveUp, Drain, NoDup, CfgOk, Cfg.Ceil;
      CoreShape(Abs());
      TaskFacts(Abs(), runtsk.value);
      MutexFacts(Abs(), m);
      DrainPost(Abs(), m);
      dspreq := InitWaitQueue(m);
      var b := IniOwner(m);
      if b {
        dspreq := true;
      }
      ret := Ret(E_OK);
    }

    /** The part of ini_mtx that takes the mutex from its owner. */
    method IniOwner(m: nat) returns (dspreq: bool)
      requires Rep() && Core(Abs(), -1, {}) && cfg.IsMtx(m) && m < |loctsk|
      requires loctsk[m].Some? ==> loctsk[m].value < |tstat|
      modifies `mutexQueue, `priority, `readyQueue, `readyPrimap, `schedtsk, `waitQueue, `loctsk
      ensures Rep() && Shape(old(Abs())) && m < |old(waitQueue)|
      ensures Abs() == if old(loctsk)[m] == None then old(Abs())
                       else var k2 := GiveUp(old(Abs()), old(loctsk)[m].value, m);
                            assert m < |k2.q.loc| by { GiveUpLoc(old(Abs()), old(loctsk)[m].value, m); }
                            k2.(q := k2.q.(loc := k2.q.loc[m := None]))
      ensures dspreq <==> dspflg && schedtsk != old(schedtsk)
    {
      hide ReadyOk, Flatten, TimeOk, CbacksOk, Core, Shape, GiveUp, NoDup, Cfg.Ceil;
      CoreShape(Abs());
      ShapeLengths(Abs());
      if loctsk[m].Some? {
        var p := loctsk[m].value;
        TaskFacts(Abs(), p);
        GiveUpLoc(Abs(), p, m);
        dspreq := MutexGiveUp(p, m);
        loctsk := loctsk[m := None];
        return;
      }
      return false;
    }

    /** sig_sem and isig_sem. */
    method SigSem(o: nat) returns (ret: Ret, dspreq: bool)
      requires Rep() && Core(Abs(), -1, {}) && cfg.IsSem(o)
      modifies `tstat, `winfo, `readyQueue, `readyPrimap, `schedtsk, `waitQueue, `semcnt, tm, tm.heap
      ensures Rep() && Sane(old(Abs())) && (Abs(), ret) == DoSigSem(old(Abs()), o)
      ensures dspreq <==> dspflg && schedtsk != old(schedtsk)
    {
      hide ReadyOk, Flatten, TimeOk, CbacksOk, Core, Sane, Shape, PopWake, NoDup;
      CoreShape(Abs());
      SemTable(Abs(), o);
      if waitQueue[o] != [] {
        WaiterFacts(Abs(), o);
        dspreq := WakeFirst(o, E_OK);
        return Ret(E_OK), dspreq;
      }
      if semcnt[o] < cfg.obj[o].max {
        semcnt := semcnt[o := semcnt[o] + 1];
        return Ret(E_OK), false;
      }
      return Ret(E_QOVR), false;
    }

    /** wai_sem (with TMO_FEVR) and twai_sem. */
    method WaiSem(o: nat, tmo: Tmo) returns (ret: Ret, dspreq: bool)
      requires Rep() && Running() && cfg.IsSem(o)
      modifies `tstat, `winfo, `readyQueue, `readyPrimap, `schedtsk, `waitQueue, `semcnt, tm, tm.heap
      ensures Rep() && Sane(old(Abs())) && o < |old(waitQueue)|
      ensures (Abs(), ret) == DoWaiSem(old(Abs()), runtsk.value, o, tmo)
      ensures dspreq ==> dspflg
      ensures !dspreq ==> schedtsk == old(schedtsk)
    {
      hide ReadyOk, Flatten, TimeOk, CbacksOk, Core, Sane, Shape, Block, NoDup;
      CoreShape(Abs());
      TaskFacts(Abs(), runtsk.value);
      if !dspflg {
        return Ret(E_CTX), false;
      }
      if tmo < TMO_FEVR {
        return Ret(E_PAR), false;
      }
      if semcnt[o] >= 1 {
        semcnt := semcnt[o := semcnt[o] - 1];
        return Ret(E_OK), false;
      }
      if tmo == TMO_POL {
        return Ret(E_TMOUT), false;
      }
      if flag[runtsk.value].waifbd {
        return Ret(E_RLWAI), false;
      }
      StartWait(runtsk.value, WaitObj(o), ArmOf(tmo));
      ret, dspreq := Blocks, true;
    }

    /** pol_sem. */
    method PolSem(o: nat) returns (ret: Ret)
      requires Rep() && Shape(Abs()) && cfg.IsSem(o)
      modifies `semcnt
      ensures Rep() && o < |waitQueue| && (Abs(), ret) == DoPolSem(old(Abs()), o)
    {
      hide ReadyOk, Flatten, TimeOk, CbacksOk, Shape;
      SemTable(Abs(), o);
      if semcnt[o] >= 1 {
        semcnt := semcnt[o := semcnt[o] - 1];
        return Ret(E_OK);
      }
      return Ret(E_TMOUT);
    }

    /** ini_sem. */
    method IniSem(o: nat) returns (ret: Ret, dspreq: bool)
      requires Rep() && Core(Abs(), -1, {}) && cfg.IsSem(o)
      modifies `tstat, `winfo, `readyQueue, `readyPrimap, `schedtsk, `waitQueue, `semcnt, tm, tm.heap
      ensures Rep() && Sane(old(Abs())) && (Abs(), ret) == DoIniSem(old(Abs()), o)
      ensures dspreq ==> dspflg
      ensures dspflg && !dspreq ==> schedtsk == old(schedtsk)
    {
      hide ReadyOk, Flatten, TimeOk, CbacksOk, Core, Sane, Shape, Drain, NoDup;
      CoreShape(Abs());
      SemTable(Abs(), o);
      DrainPost(Abs(), o);
      dspreq := InitWaitQueue(o);
      SemTableAfter(old(Abs()), Abs(), o);
      semcnt := semcnt[o := cfg.obj[o].init];
      ret := Ret(E_OK);
    }

    // ----- kernel/sys_manage.c and kernel/interrupt.c -----------------------

    // ----- the queues of other objects ---------------------------------------

    /** The waiting branch of snd_dtq, rcv_dtq, snd_pdq, rcv_pdq, get_mpf and wai_flg. */
    method WaiQue(o: nat, tmo: Tmo) returns (ret: Ret, dspreq: bool)
      requires Rep() && Running() && cfg.IsQue(o)
      modifies `tstat, `winfo, `readyQueue, `readyPrimap, `schedtsk, `waitQueue, tm, tm.heap
      ensures Rep() && Sane(old(Abs())) && o < |old(waitQueue)|
      ensures (Abs(), ret) == DoWaiQue(old(Abs()), runtsk.value, o, tmo)
      ensures dspreq ==> dspflg
      ensures !dspreq ==> schedtsk == old(schedtsk)
    {
      hide ReadyOk, Flatten, TimeOk, CbacksOk, Core, Sane, Shape, Block, NoDup;
      CoreShape(Abs());
      TaskFacts(Abs(), runtsk.value);
      QueFacts(Abs(), o);
      if !dspflg {
        return Ret(E_CTX), false;
      }
      if tmo < TMO_FEVR {
        return Ret(E_PAR), false;
      }
      if tmo == TMO_POL {
        return Ret(E_TMOUT), false;
      }
      if flag[runtsk.value].waifbd {
        return Ret(E_RLWAI), false;
      }
      StartWait(runtsk.value, WaitObj(o), ArmOf(tmo));
      ret, dspreq := Blocks, true;
    }

    /** queue_delete and wait_complete for task `t`, if it waits in queue `o`. */
    method WakeOne(o: nat, t: nat) returns (dspreq: bool)
      requires Rep() && Core(Abs(), -1, {})
      modifies `tstat, `winfo, `readyQueue, `readyPrimap, `schedtsk, `waitQueue, tm, tm.heap
      ensures Rep() && Core(Abs(), -1, {}) && |old(tstat)| == |old(winfo)| && |tstat| == |winfo|
      ensures Abs() == if WaitsOn(old(Abs()), t, o) then EndWait(old(Abs()), t, E_OK) else old(Abs())
      ensures dspreq <==> dspflg && schedtsk != old(schedtsk)
      ensures schedtsk == old(schedtsk) || (WaitsOn(old(Abs()), t, o) && schedtsk == Some(t))
      ensures |tstat| == |old(tstat)| && forall u :: 0 <= u < |tstat| && old(tstat)[u].Runnable? ==> tstat[u].Runnable?
    {
      hide Rep, Flatten, Core, EndWait, InsertLast, NoDup;
      ghost var k := Abs();
      TaskSizes(k);
      if t < |tstat| && tstat[t].Waiting? && tstat[t].fac == WaitObj(o) {
        TaskFacts(k, t);
        HeadIsSched();
        EndWaitPost(k, t, E_OK);
        EndWaitFields(k, t, E_OK);
        InsertLastHead(k.q.rq, k.t.pri, t);
        WaitDequeueWobj(t);
        dspreq := WakeUnlinked(k, t);
        HeadIsSched();
        return;
      }
      return false;
    }

    method WakeUnlinked(ghost k: K, t: nat) returns (dspreq: bool)
      requires Rep() && Wakeable(t) && t < |k.t.tstat| == |k.t.winfo| && k.t.tstat[t].Waiting? && Abs() == Unlink(k, t)
      modifies `tstat, `winfo, `readyQueue, `readyPrimap, `schedtsk, tm, tm.heap
      ensures Rep() && Abs() == EndWait(k, t, E_OK)
      ensures dspreq <==> dspflg && schedtsk != old(schedtsk)
    {
      hide Rep, Flatten, Unlink, Wake;
      UnlinkTasks(k, t);
      dspreq := WaitComplete(t, E_OK);
    }

    /** The tasks of queue `o` that a call serves are woken one by one. */
    method WakQue(o: nat, ts: seq<nat>) returns (dspreq: bool)
      requires Rep() && Core(Abs(), -1, {})
      modifies `tstat, `winfo, `readyQueue, `readyPrimap, `schedtsk, `waitQueue, tm, tm.heap
      ensures Rep() && |old(tstat)| == |old(winfo)| && Abs() == WakeAll(old(Abs()), o, ts)
      ensures dspreq <==> dspflg && schedtsk != old(schedtsk)
    {
      hide Rep, Flatten, Core, EndWait;
      TaskSizes(Abs());
      HeadIsSched();
      SchedRuns(Abs());
      dspreq := false;
      var j := 0;
      assert ts[0..] == ts;
      while j < |ts|
        invariant 0 <= j <= |ts| && Rep() && Core(Abs(), -1, {}) && |tstat| == |winfo|
        invariant WakeAll(Abs(), o, ts[j..]) == WakeAll(old(Abs()), o, ts)
        invariant old(schedtsk).Some? ==> old(schedtsk).value < |tstat| && tstat[old(schedtsk).value].Runnable?
        invariant dspreq <==> dspflg && schedtsk != old(schedtsk)
      {
        assert ts[j..][0] == ts[j] && ts[j..][1..] == ts[j + 1..];
        var b := WakeOne(o, ts[j]);
        if b {
          dspreq := true;
        }
        j := j + 1;
      }
    }

    /** ini_dtq, ini_pdq, ini_mpf and ini_flg: the waiting tasks of one queue, or of two. */
    method IniQue(o: nat, o2: nat) returns (ret: Ret, dspreq: bool)
      requires Rep() && Core(Abs(), -1, {}) && cfg.IsQue(o) && cfg.IsQue(o2)
      modifies `tstat, `winfo, `readyQueue, `readyPrimap, `schedtsk, `waitQueue, tm, tm.heap
      ensures Rep() && Sane(old(Abs())) && o < |old(waitQueue)| && o2 < |old(waitQueue)|
      ensures (Abs(), ret) == DoIniQue(old(Abs()), o, o2)
      ensures dspreq ==> dspflg
      ensures dspflg && !dspreq ==> schedtsk == old(schedtsk)
    {
      hide Rep, Flatten, Core, Sane, Shape, Drain, NoDup;
      CoreShape(Abs());
      QueFacts(Abs(), o);
      QueFacts(Abs(), o2);
      DrainCore(Abs(), -1, {}, o);
      DrainOk(Abs(), o) by { SaneParts(Abs()); }
      dspreq := InitWaitQueue(o);
      var b := InitWaitQueue(o2);
      if b {
        dspreq := true;
      }
      ret := Ret(E_OK);
    }

    /** rot_rdq and irot_rdq. */
    method RotRdq(tskpri: Option<nat>) returns (ret: Ret, dspreq: bool)
      requires Rep() && Core(Abs(), -1, {})
      requires tskpri == None ==> runtsk.Some? && runtsk.value < |bpriority|
      modifies `readyQueue, `schedtsk
      ensures Rep()
      ensures (Abs(), ret) == DoRotRdq(old(Abs()), if tskpri.Some? then tskpri.value else bpriority[runtsk.value])
      ensures dspreq <==> dspflg && schedtsk != old(schedtsk)
    {
      hide ReadyOk, Flatten, TimeOk, CbacksOk, Core, NoDup, Rotate;
      ReadyOnce(Abs());
      if tskpri.Some? && tskpri.value >= TNUM_TPRI {
        return Ret(E_PAR), false;
      }
      var pri := if tskpri.Some? then tskpri.value else bpriority[runtsk.value];
      dspreq := RotateReadyQueue(pri);
      ret := Ret(E_OK);
    }

    /** dis_dsp. */
    method DisDsp()
      requires Rep()
      modifies `disdsp, `dspflg
      ensures Rep() && Abs() == old(Abs()).(c := old(Abs()).c.(disdsp := true)) && !dspflg
    {
      hide ReadyOk, Flatten, TimeOk, CbacksOk;
      disdsp := true;
      dspflg := false;
    }

    /** ena_dsp. */
    method EnaDsp() returns (dspreq: bool)
      requires Rep()
      modifies `disdsp, `dspflg
      ensures Rep() && Abs() == old(Abs()).(c := old(Abs()).c.(disdsp := false))
      ensures dspreq <==> dspflg && runtsk != schedtsk
    {
      hide ReadyOk, Flatten, TimeOk, CbacksOk;
      disdsp := false;
      dspreq := false;
      if ipmflg {
        dspflg := true;
        dspreq := runtsk != schedtsk;
      }
    }

    /** chg_ipm: `enaall` if the new mask is TIPM_ENAALL. */
    method ChgIpm(enaall: bool) returns (dspreq: bool)
      requires Rep()
      modifies `ipmflg, `dspflg
      ensures Rep() && Abs() == old(Abs()).(c := old(Abs()).c.(ipmflg := enaall))
      ensures dspreq <==> dspflg && runtsk != schedtsk
    {
      hide ReadyOk, Flatten, TimeOk, CbacksOk;
      dspreq := false;
      if enaall {
        ipmflg := true;
        if !disdsp {
          dspflg := true;
          dspreq := runtsk != schedtsk;
        }
      } else {
        ipmflg := false;
        dspflg := false;
      }
    }

    // ----- kernel/cyclic.c and kernel/alarm.c -------------------------------

    /** tmevtb_enqueue_cyc. */
    method EnqueueCyc(i: nat, time: Word, ghost t: int)
      requires Rep() && i < |evttim| == |cfg.cyc| && Cyc(i) !in tm.ev && InWindow(t, tm.min) && time == ToWord(t)
      modifies `evttim, `evt, tm, tm.heap
      ensures Rep() && Abs() == old(Abs()).(e := old(Abs()).e.(evttim := old(evt)[i := t], tmr := old(tm.ev)[Cyc(i) := t]))
    {
      hide SchedOk, ReadyOk, Flatten, Period.Ok, BlockSet, Period.Floor, ToWord, InWindow, TimeEvents.Valid;
      CycBlock(cfg, i);
      tm.EnqueueEvttim(Cyc(i), time, t, Cback.CallCychdr);
      evttim := evttim[i := time];
      evt := evt[i := t];
    }

    /** tmevtb_dequeue. */
    method TmevtbDequeue(b: Blk)
      requires Rep() && b in tm.ev
      modifies tm, tm.heap
      ensures Rep() && Abs() == old(Abs()).(e := old(Abs()).e.(tmr := old(tm.ev) - {b}))
    {
      hide ReadyOk, Flatten, BlockSet, Period.Floor, ToWord, TimeEvents.Valid;
      tm.Delete(b);
    }

    /** sta_cyc. */
    method StaCyc(i: nat)
      requires Rep() && Core(Abs(), -1, {}) && i < |cfg.cyc|
      modifies `cycsta, `evttim, `evt, tm, tm.heap
      ensures Rep() && Sane(old(Abs())) && Abs() == DoStaCyc(old(Abs()), i).0
    {
      hide ReadyOk, Flatten, BlockSet, Period.Floor, Period.Ceil, Core, Sane, ToWord, TimeEvents.Valid;
      CoreShape(Abs());
      HandlerFacts(Abs(), i);
      if cycsta[i] {
        TmevtbDequeue(Cyc(i));
      } else {
        cycsta := cycsta[i := true];
      }
      ClockFacts();
      AddToWord(tm.Base(), cfg.cyc[i].cycphs);
      EnqueueCyc(i, ToWord(tm.BaseTime() + cfg.cyc[i].cycphs), tm.Base() + cfg.cyc[i].cycphs);
      assert cycsta == old(cycsta)[i := true];
      SameUpdate(old(tm.ev), Cyc(i), tm.ev[Cyc(i)]);
    }

    lemma ClockFacts()
      requires TimeOk()
      ensures tm.ClockOk() && tm.Base() == cfg.per.Ceil(tm.n + 1) && cfg.per.Ok()
      ensures tm.min < tm.Base() <= tm.min + 0x7fff_ffff
      ensures cfg.per.Ok() && tm.nextTime == ToWord(tm.Next()) && tm.nextSubtime == cfg.per.Rest(tm.n + 1)
    {
      tm.BaseInWindow();
    }

    /** stp_cyc. */
    method StpCyc(i: nat)
      requires Rep() && Core(Abs(), -1, {}) && i < |cfg.cyc|
      modifies `cycsta, tm, tm.heap
      ensures Rep() && Shape(old(Abs())) && Abs() == DoStpCyc(old(Abs()), i).0
    {
      hide ReadyOk, Flatten, BlockSet, Period.Floor, Core, Shape, ToWord, TimeOk, CbacksOk;
      CoreShape(Abs());
      HandlerFacts(Abs(), i);
      if cycsta[i] {
        cycsta := cycsta[i := false];
        TmevtbDequeue(Cyc(i));
      }
    }

    /** sta_alm and ista_alm. */
    method StaAlm(i: nat, almtim: nat) returns (ret: Ret)
      requires Rep() && Core(Abs(), -1, {}) && i < cfg.nalm
      modifies `almsta, tm, tm.heap
      ensures Rep() && Sane(old(Abs())) && (Abs(), ret) == DoStaAlm(old(Abs()), i, almtim)
    {
      hide ReadyOk, Flatten, BlockSet, Period.Floor, Period.Ceil, Core, Sane, ToWord, TimeOk, CbacksOk;
      CoreShape(Abs());
      AlarmFacts(Abs(), i);
      if almtim > TMAX_RELTIM {
        return Ret(E_PAR);
      }
      if almsta[i] {
        TmevtbDequeue(Alm(i));
      } else {
        almsta := almsta[i := true];
      }
      EnqueueAlm(i, almtim);
      assert almsta == old(almsta)[i := true];
      SameUpdate(old(tm.ev), Alm(i), tm.ev[Alm(i)]);
      ret := Ret(E_OK);
    }

    /** tmevtb_enqueue for an alarm handler. */
    method EnqueueAlm(i: nat, almtim: nat)
      requires Rep() && i < cfg.nalm && Alm(i) in BlockSet(cfg) && Alm(i) !in tm.ev && almtim <= TMAX_RELTIM
      modifies tm, tm.heap
      ensures Rep() && cfg.per.Ok()
      ensures Abs() == old(Abs()).(e := old(Abs()).e.(tmr := old(tm.ev)[Alm(i) := cfg.per.Ceil(tm.n + 1) + almtim]))
    {
      hide ReadyOk, Flatten, BlockSet, Period.Floor, Period.Ceil, ToWord, TimeEvents.Valid;
      PeriodOk();
      tm.Enqueue(Alm(i), almtim, Cback.CallAlmhdr);
    }

    /** stp_alm and istp_alm. */
    method StpAlm(i: nat)
      requires Rep() && Core(Abs(), -1, {}) && i < cfg.nalm
      modifies `almsta, tm, tm.heap
      ensures Rep() && Shape(old(Abs())) && Abs() == DoStpAlm(old(Abs()), i).0
    {
      hide ReadyOk, Flatten, BlockSet, Period.Floor, Core, Shape, ToWord, TimeOk, CbacksOk;
      CoreShape(Abs());
      AlarmFacts(Abs(), i);
      if almsta[i] {
        almsta := almsta[i := false];
        TmevtbDequeue(Alm(i));
      }
    }

    // ----- Calls from tasks and from handlers -------------------------------

    /** Before and after the body of a call the running task is the highest, unless it
        cannot be preempted or a dispatch is asked for. */
    ghost predicate Settled(dspreq: bool)
      reads this
    {
      (dspreq ==> dspflg) && (dspflg && !dspreq ==> schedtsk == runtsk)
    }

    /** The calls of kernel/task_manage.c. */
    method ManageCall(call: Call) returns (ret: Ret, dspreq: bool)
      requires Rep() && Running() && Settled(false) && ArgsOk(cfg, call)
      requires call.ActTsk? || call.ExtTsk? || call.TerTsk? || call.ChgPri?
      modifies `disdsp, `ipmflg, `dspflg
      modifies `tstat, `winfo, `readyQueue, `readyPrimap, `schedtsk, `waitQueue, `loctsk, `mutexQueue, `priority
      modifies `bpriority, `flag, tm, tm.heap
      ensures Rep() && Sane(old(Abs())) && (Abs(), ret) == DoCall(old(Abs()), runtsk.value, call)
      ensures Settled(dspreq)
    {
      hide Rep, Abs, Core, Sane, DoActTsk, DoExtTsk, DoTerTsk, DoChgPri;
      CoreShape(Abs());
      TaskTable();
      match call
      case ActTsk(t) => ret, dspreq := ActTsk(t);
      case ExtTsk => ret, dspreq := ExtTsk();
      case TerTsk(t) => ret, dspreq := TerTsk(t);
      case ChgPri(t, p) => ret, dspreq := ChgPri(t, p);
    }

    lemma TaskTable()
      requires Running()
      ensures |tstat| == |cfg.ipri| == |bpriority| && |waitQueue| == |cfg.obj| && Shape(Abs())
    {
      TaskFacts(Abs(), runtsk.value);
    }

    /** The calls of kernel/task_sync.c. */
    method SyncCall(call: Call) returns (ret: Ret, dspreq: bool)
      requires Rep() && Running() && Settled(false) && ArgsOk(cfg, call)
      requires call.SlpTsk? || call.WupTsk? || call.RelWai? || call.SusTsk? || call.RsmTsk? || call.DlyTsk?
               || call.DisWai? || call.EnaWai?
      modifies `tstat, `winfo, `flag, `readyQueue, `readyPrimap, `schedtsk, `waitQueue, tm, tm.heap
      ensures Rep() && Sane(old(Abs())) && (Abs(), ret) == DoCall(old(Abs()), runtsk.value, call)
      ensures Settled(dspreq)
    {
      hide Rep, Abs, Core, Sane, DoSlpTsk, DoWupTsk, DoRelWai, DoSusTsk, DoRsmTsk, DoDlyTsk, DoDisWai, DoEnaWai, Shape;
      CoreShape(Abs());
      TaskTable();
      dspreq := false;
      match call
      case SlpTsk(tmo) => ret, dspreq := SlpTsk(tmo);
      case WupTsk(t) => ret, dspreq := WupTsk(t);
      case RelWai(t) => ret, dspreq := RelWai(t);
      case SusTsk(t) => ret, dspreq := SusTsk(t);
      case RsmTsk(t) => ret, dspreq := RsmTsk(t);
      case DlyTsk(d) => ret, dspreq := DlyTsk(d);
      case DisWai(t, b) => ret := DisWai(t, b);
      case EnaWai(t) => ret := EnaWai(t);
    }

    /** The calls of kernel/mutex.c. */
    method MutexCall(call: Call) returns (ret: Ret, dspreq: bool)
      requires Rep() && Running() && Settled(false) && ArgsOk(cfg, call)
      requires call.LocMtx? || call.PlocMtx? || call.UnlMtx? || call.IniMtx?
      modifies `tstat, `winfo, `readyQueue, `readyPrimap, `schedtsk, `waitQueue, `mutexQueue, `loctsk, `priority
      modifies tm, tm.heap
      ensures Rep() && Sane(old(Abs())) && (Abs(), ret) == DoCall(old(Abs()), runtsk.value, call)
      ensures Settled(dspreq)
    {
      hide Rep, Abs, Core, Sane, DoUnlMtx, DoIniMtx, Acquire, Block, Shape, Cfg.Ceil;
      CoreShape(Abs());
      TaskTable();
      dspreq := false;
      match call
      case LocMtx(m, tmo) =>
        ret, dspreq := LocMtx(m, tmo);
      case PlocMtx(m) =>
        ret := PlocMtx(m);
      case UnlMtx(m) => ret, dspreq := UnlMtx(m);
      case IniMtx(m) => ret, dspreq := IniMtx(m);
    }

    lemma HeadIsSched()
      requires Rep()
      ensures schedtsk == Sched(Abs()) && dspflg == Dsp(Abs())
    {
    }

    /** The calls of kernel/semaphore.c. */
    method SemCall(call: Call) returns (ret: Ret, dspreq: bool)
      requires Rep() && Running() && Settled(false) && ArgsOk(cfg, call)
      requires call.SigSem? || call.WaiSem? || call.PolSem? || call.IniSem?
      modifies `tstat, `winfo, `readyQueue, `readyPrimap, `schedtsk, `waitQueue, `semcnt, tm, tm.heap
      ensures Rep() && Sane(old(Abs())) && (Abs(), ret) == DoCall(old(Abs()), runtsk.value, call)
      ensures Settled(dspreq)
    {
      hide Rep, Abs, Core, Sane, DoSigSem, DoWaiSem, DoPolSem, DoIniSem, Shape;
      CoreShape(Abs());
      TaskTable();
      dspreq := false;
      match call
      case SigSem(o) => ret, dspreq := SigSem(o);
      case WaiSem(o, tmo) => ret, dspreq := WaiSem(o, tmo);
      case PolSem(o) => ret := PolSem(o);
      case IniSem(o) => ret, dspreq := IniSem(o);
    }

    /** What the calls of the other objects do to tasks and their queues. */
    method QueCall(call: Call) returns (ret: Ret, dspreq: bool)
      requires Rep() && Running() && Settled(false) && ArgsOk(cfg, call)
      requires call.WaiQue? || call.WakQue? || call.IniQue?
      modifies `tstat, `winfo, `readyQueue, `readyPrimap, `schedtsk, `waitQueue, tm, tm.heap
      ensures Rep() && Sane(old(Abs())) && (Abs(), ret) == DoCall(old(Abs()), runtsk.value, call)
      ensures Settled(dspreq)
    {
      hide Rep, Abs, Core, Sane, DoWaiQue, WakeAll, DoIniQue, Shape;
      CoreShape(Abs());
      TaskTable();
      ret, dspreq := Ret(E_OK), false;
      match call
      case WaiQue(o, tmo) => ret, dspreq := WaiQue(o, tmo);
      case WakQue(o, ts) => dspreq := WakQue(o, ts);
      case IniQue(o, o2) => ret, dspreq := IniQue(o, o2);
    }

    /** The calls of kernel/sys_manage.c and kernel/interrupt.c. */
    method SystemCall(call: Call) returns (ret: Ret, dspreq: bool)
      requires Rep() && Running() && Settled(false) && ArgsOk(cfg, call)
      requires call.RotRdq? || call.DisDsp? || call.EnaDsp? || call.ChgIpm?
      modifies `readyQueue, `schedtsk, `disdsp, `ipmflg, `dspflg
      ensures Rep() && Sane(old(Abs())) && (Abs(), ret) == DoCall(old(Abs()), runtsk.value, call)
      ensures Settled(dspreq)
    {
      hide Rep, Abs, Core, Sane, DoRotRdq, Shape, ArgsOk, DoCall;
      CoreShape(Abs());
      TaskTable();
      AbsFields();
      SystemAnswers(Abs(), runtsk.value, call);
      ret, dspreq := Ret(E_OK), false;
      match call
      case RotRdq(p) => ret, dspreq := RotRdq(p);
      case DisDsp => DisDsp();
      case EnaDsp => dspreq := EnaDsp();
      case ChgIpm(ena) => dspreq := ChgIpm(ena);
    }

    lemma AbsFields()
      ensures Abs().cfg == cfg && Abs().c.run == runtsk && Abs().t.bpri == bpriority && Abs().t.tstat == tstat
      ensures Abs().c.inint == inint && Abs().e.ticking == ticking && Abs().e.n == tm.n && Abs().e.tmr == tm.ev
    {
    }

    /** The calls of kernel/cyclic.c and kernel/alarm.c. */
    method HandlerCall(call: Call) returns (ret: Ret)
      requires Rep() && Core(Abs(), -1, {}) && ArgsOk(cfg, call)
      requires call.StaCyc? || call.StpCyc? || call.StaAlm? || call.StpAlm?
      modifies `cycsta, `evttim, `evt, `almsta, tm, tm.heap
      ensures Rep() && Sane(old(Abs()))
      ensures forall r :: 0 <= r < |tstat| ==> (Abs(), ret) == DoCall(old(Abs()), r, call)
    {
      hide Rep, Abs, Core, Sane, Shape, DoStaCyc, DoStpCyc, DoStaAlm, DoStpAlm;
      CoreShape(Abs());
      AbsFields();
      HandlersAnswer(Abs(), call);
      ret := Ret(E_OK);
      match call
      case StaCyc(i) => StaCyc(i);
      case StpCyc(i) => StpCyc(i);
      case StaAlm(i, d) => ret := StaAlm(i, d);
      case StpAlm(i) => StpAlm(i);
    }

    /** The body of a service call of the running task. */
    method TaskBody(call: Call) returns (ret: Ret, dspreq: bool)
      requires Rep() && Running() && Settled(false) && ArgsOk(cfg, call)
      modifies this, tm, tm.heap
      ensures Rep() && Sane(old(Abs())) && (Abs(), ret) == DoCall(old(Abs()), old(runtsk).value, call)
      ensures Settled(dspreq)
    {
      hide Rep, Abs, Core, DoCall, Sane, ArgsOk;
      match call
      case ActTsk(_) | ExtTsk | TerTsk(_) | ChgPri(_, _) => ret, dspreq := ManageCall(call);
      case SlpTsk(_) | WupTsk(_) | RelWai(_) | SusTsk(_) | RsmTsk(_) | DlyTsk(_) | DisWai(_, _) | EnaWai(_) =>
        ret, dspreq := SyncCall(call);
      case LocMtx(_, _) | PlocMtx(_) | UnlMtx(_) | IniMtx(_) => ret, dspreq := MutexCall(call);
      case SigSem(_) | WaiSem(_, _) | PolSem(_) | IniSem(_) => ret, dspreq := SemCall(call);
      case WaiQue(_, _) | WakQue(_, _) | IniQue(_, _) => ret, dspreq := QueCall(call);
      case RotRdq(_) | DisDsp | EnaDsp | ChgIpm(_) => ret, dspreq := SystemCall(call);
      case StaCyc(_) | StpCyc(_) | StaAlm(_, _) | StpAlm(_) =>
        ret := HandlerCall(call);
        dspreq := false;
    }

    /** A service call of the running task, up to and including the dispatch at its end. */
    method TaskCall(call: Call) returns (ret: Ret)
      requires Valid() && !inint && runtsk.Some? && ArgsOk(cfg, call)
      modifies this, tm, tm.heap
      ensures Valid() && Enabled(old(Abs()), Task(call)) && (Abs(), ret) == Step(old(Abs()), Task(call))
    {
      hide Rep, Abs, Core, DoCall, Inv, Sane, ArgsOk, Dispatch;
      TaskMayCall(call);
      AbsFields();
      ghost var k0 := Abs();
      var dspreq;
      ret, dspreq := TaskBody(call);
      DispatchIf(dspreq);
      StepInv(k0, Task(call));
    }

    /** The end of a task's call: dispatch, if that is needed. */
    method DispatchIf(dspreq: bool)
      requires Rep() && Settled(dspreq)
      modifies `runtsk
      ensures Rep() && Abs() == Dispatch(old(Abs()))
    {
      hide ReadyOk, TimeOk, CbacksOk;
      HeadIsSched();
      if dspreq {
        runtsk := schedtsk;
      }
    }

    lemma TaskMayCall(call: Call)
      requires Valid() && !inint && runtsk.Some? && ArgsOk(cfg, call)
      ensures Rep() && Running() && Settled(false) && Enabled(Abs(), Task(call))
    {
      hide Core, Flatten, ArgsOk;
      InvCore(Abs());
      EnabledIff(Abs(), Task(call));
      HeadIsSched();
    }

    /** The body of a service call of an interrupt handler. */
    method IntrBody(call: Call) returns (ret: Ret, dspreq: bool)
      requires Rep() && Core(Abs(), -1, {}) && FromInterrupt(call) && ArgsOk(cfg, call)
      modifies `tstat, `winfo, `flag, `readyQueue, `readyPrimap, `schedtsk, `waitQueue, `semcnt
      modifies `cycsta, `evttim, `evt, `almsta, tm, tm.heap
      ensures Rep() && Sane(old(Abs())) && (Abs(), ret) == DoCall(old(Abs()), 0, call)
      ensures dspreq <==> dspflg && schedtsk != old(schedtsk)
    {
      hide Rep, Abs, Core, Sane, DoActTsk, DoWupTsk, DoRelWai, DoDisWai, DoEnaWai, DoSigSem, DoRotRdq, DoStaAlm, DoStpAlm;
      hide Shape, WakeAll;
      CoreShape(Abs());
      AbsTables();
      dspreq := false;
      match call
      case ActTsk(t) => ret, dspreq := ActTsk(t);
      case WupTsk(t) => ret, dspreq := WupTsk(t);
      case RelWai(t) => ret, dspreq := RelWai(t);
      case DisWai(t, b) => ret := DisWai(t, b);
      case EnaWai(t) => ret := EnaWai(t);
      case SigSem(o) => ret, dspreq := SigSem(o);
      case WakQue(o, ts) =>
        dspreq := WakQue(o, ts);
        ret := Ret(E_OK);
      case RotRdq(p) => ret, dspreq := RotRdq(p);
      case StaAlm(i, d) => ret := StaAlm(i, d);
      case StpAlm(i) =>
        HandlersAnswer(Abs(), call);
        StpAlm(i);
        ret := Ret(E_OK);
    }

    lemma AbsTables()
      requires Shape(Abs())
      ensures |tstat| == |cfg.ipri| && Abs().cfg == cfg
    {
    }

    /** A service call of an interrupt handler. */
    method IntrCall(call: Call) returns (ret: Ret)
      requires Valid() && inint && FromInterrupt(call) && ArgsOk(cfg, call)
      modifies this, tm, tm.heap
      ensures Valid() && Enabled(old(Abs()), Intr(call)) && (Abs(), ret) == Step(old(Abs()), Intr(call))
    {
      hide Rep, Abs, Core, DoCall, Inv, Sane, ArgsOk, Request;
      InvCore(Abs());
      AbsFields();
      EnabledIff(Abs(), Intr(call));
      ghost var k0, sched0 := Abs(), schedtsk;
      HeadIsSched();
      var dspreq;
      ret, dspreq := IntrBody(call);
      RequestIf(dspreq, k0);
      StepInv(k0, Intr(call));
    }

    /** The end of a handler's call: a dispatch is asked for, if that is needed. */
    method RequestIf(dspreq: bool, ghost k0: K)
      requires Rep() && (dspreq <==> dspflg && schedtsk != Sched(k0))
      modifies `reqflg
      ensures Rep() && Abs() == Request(k0, old(Abs()))
    {
      hide ReadyOk, TimeOk, CbacksOk;
      HeadIsSched();
      if dspreq {
        reqflg := true;
      }
    }

    // ----- signal_time ------------------------------------------------------

    /** wait_tmout and wait_tmout_ok: the timer of task `t` is no longer registered. */
    method WaitTmout(t: nat, cb: Cback, ghost k0: K)
      requires Rep() && Inv(k0) && Tsk(t) in k0.e.tmr && Abs() == k0.(e := k0.e.(tmr := k0.e.tmr - {Tsk(t)}))
      requires cb == CbackOf(tstat, Tsk(t)) && schedtsk == Sched(k0)
      modifies `tstat, `winfo, `readyQueue, `readyPrimap, `schedtsk, `waitQueue, `reqflg
      ensures Rep() && FireOk(k0, Tsk(t)) && Abs() == DoFire(k0, Tsk(t))
    {
      hide ReadyOk, Flatten, TimeOk, CbacksOk, Inv, Shape, Wake, EndWait, Request, Unlink;
      Registered(k0, Tsk(t));
      InvShape(k0);
      ShapeLengths(k0);
      TimedOut(k0, t);
      var dspreq;
      if cb == Cback.WaitTmout {
        WaitDequeueWobj(t);
        dspreq := EndOfWait(t, E_TMOUT);
      } else {
        dspreq := EndOfWait(t, E_OK);
      }
      RequestIf(dspreq, k0);
    }

    /** call_cychdr, up to the call of the handler. */
    method CallCychdr(i: nat, ghost k0: K)
      requires Rep() && Inv(k0) && Cyc(i) in k0.e.tmr && Abs() == k0.(e := k0.e.(tmr := k0.e.tmr - {Cyc(i)}))
      requires k0.e.tmr[Cyc(i)] <= k0.cfg.per.Floor(k0.e.n)
      modifies `evttim, `evt, tm, tm.heap
      ensures Rep() && FireOk(k0, Cyc(i)) && Abs() == DoFire(k0, Cyc(i))
    {
      hide ReadyOk, Flatten, TimeEvents.Valid, BlockSet, Inv, Period.Floor, Period.Ceil, ToWord;
      Registered(k0, Cyc(i));
      InvShape(k0);
      CycNext(k0, i);
      ghost var t := evt[i] + cfg.cyc[i].cyctim;
      AddToWord(evt[i], cfg.cyc[i].cyctim);
      CycWindow(t);
      EnqueueCyc(i, ToWord(evttim[i] + cfg.cyc[i].cyctim), t);
      SameUpdate(k0.e.tmr, Cyc(i), t);
    }

    lemma CycWindow(t: int)
      requires TimeOk() && cfg.per.Ok() && (ticking ==> tm.n > 0)
      requires Lowest(cfg.per, Abs().e) < t <= Highest(cfg.per, Abs().e)
      ensures InWindow(t, tm.min)
    {
      hide Period.Ceil;
      tm.BaseInWindow();
    }

    /** call_almhdr, up to the call of the handler. */
    method CallAlmhdr(i: nat, ghost k0: K)
      requires Rep() && Inv(k0) && Alm(i) in k0.e.tmr && Abs() == k0.(e := k0.e.(tmr := k0.e.tmr - {Alm(i)}))
      modifies `almsta
      ensures Rep() && FireOk(k0, Alm(i)) && Abs() == DoFire(k0, Alm(i))
    {
      hide ReadyOk, Flatten, TimeOk, CbacksOk, Inv;
      Registered(k0, Alm(i));
      InvShape(k0);
      almsta := almsta[i := false];
    }

    /** One round of the loop of signal_time, up to the call of a handler: the earliest
        event is taken out of the heap and its callback is called. */
    method FireTop() returns (ghost b: Blk)
      requires Valid() && inint && ticking && TopIsDue()
      modifies this, tm, tm.heap
      ensures Valid() && Enabled(old(Abs()), Fire(b)) && Abs() == Step(old(Abs()), Fire(b)).0
    {
      hide SchedOk, Flatten, Inv, DoFire, Step, Enabled, Shape, Sane, Period.Floor, BlockSet, TimeEvents.Valid;
      ghost var k0 := Abs();
      InvShape(k0);
      HeadIsSched();
      var blk := TakeTop();
      b := blk;
      TopFires(k0, b);
      CallBack(blk, k0);
    }

    /** The call through the callback pointer. */
    method CallBack(b: Blk, ghost k0: K)
      requires Rep() && Inv(k0) && b in k0.e.tmr && Abs() == k0.(e := k0.e.(tmr := k0.e.tmr - {b}))
      requires b in tm.blk && tm.blk[b].callback == CbackOf(tstat, b) && schedtsk == Sched(k0)
      requires k0.cfg.per.Ok() && k0.e.tmr[b] <= k0.cfg.per.Floor(k0.e.n)
      modifies `tstat, `winfo, `readyQueue, `readyPrimap, `schedtsk, `waitQueue, `reqflg
      modifies `evttim, `evt, `almsta, tm, tm.heap
      ensures Rep() && FireOk(k0, b) && Abs() == DoFire(k0, b)
    {
      hide Rep, Abs, Inv, DoFire, Period.Floor, Period.Ok;
      match b
      case Tsk(t) => WaitTmout(t, tm.blk[b].callback, k0);
      case Cyc(i) => CallCychdr(i, k0);
      case Alm(i) => CallAlmhdr(i, k0);
    }

    /** The earliest event is due. */
    ghost predicate TopIsDue()
      reads tm, tm.heap
    {
      && cfg.per.Ok() && 0 < tm.lastIndex <= tm.heap.Length
      && var top := Node(tm.heap[..], 1).blk;
      && top in tm.ev && tm.ev[top] <= cfg.per.Floor(tm.n)
      && forall c :: c in tm.ev ==> tm.ev[top] <= tm.ev[c]
    }

    /** The condition of the loop of signal_time. */
    method TickDue() returns (due: bool)
      requires Rep()
      ensures cfg.per.Ok()
      ensures due ==> TopIsDue()
      ensures !due ==> forall b :: b in tm.ev ==> cfg.per.Floor(tm.n) < tm.ev[b]
    {
      hide ReadyOk, Flatten, Period.Floor, BlockSet;
      due := tm.TopDue();
      if due {
        TopBlock(tm.heap[..], tm.blk, tm.ev, tm.lastIndex);
      }
    }

    /** The first part of signal_time. */
    method BeginTick()
      requires Valid() && inint && !ticking
      modifies `ticking, tm
      ensures Valid() && inint && ticking
      ensures Enabled(old(Abs()), TickBegin) && Abs() == Step(old(Abs()), TickBegin).0
    {
      hide ReadyOk, Flatten, Period.Floor, BlockSet, Inv, TimeEvents.Valid;
      ghost var k0 := Abs();
      EnabledIff(k0, TickBegin);
      ClockFacts();
      tm.BeginTick();
      ticking := true;
      StepInv(k0, TickBegin);
    }

    /** The last part of signal_time. */
    method EndTick()
      requires Valid() && inint && ticking && cfg.per.Ok()
      requires forall b :: b in tm.ev ==> cfg.per.Floor(tm.n) < tm.ev[b]
      modifies `ticking, tm
      ensures Valid() && inint && !ticking && tm.ev == old(tm.ev) && tm.n == old(tm.n)
      ensures Enabled(old(Abs()), TickEnd) && Abs() == Step(old(Abs()), TickEnd).0
    {
      hide ReadyOk, Flatten, Period.Floor, BlockSet, Inv, TimeEvents.Valid, SchedOk;
      ghost var k0 := Abs();
      EnabledIff(k0, TickEnd);
      ClockFacts();
      tm.EndTick();
      ticking := false;
      StepInv(k0, TickEnd);
    }

    /** The top of the heap leaves it; its callback field stays as it is. */
    method TakeTop() returns (b: Blk)
      requires Rep() && tm.lastIndex > 0
      modifies tm, tm.heap
      ensures Rep() && b == Node(old(tm.heap[..]), 1).blk
      ensures Abs() == old(Abs()).(e := old(Abs()).e.(tmr := old(tm.ev) - {b}))
      ensures b in tm.blk && tm.blk[b].callback == CbackOf(tstat, b)
    {
      hide ReadyOk, Flatten, Period.Floor, BlockSet;
      b := tm.heap[0].blk;
      assert b == Node(tm.heap[..], 1).blk;
      tm.DeleteTop();
    }

    /** The body of a handler, as the list of the calls it makes. */
    method RunHandler(calls: seq<Call>) returns (ghost ops: seq<Op>)
      requires Valid() && inint
      requires forall i :: 0 <= i < |calls| ==> FromInterrupt(calls[i]) && ArgsOk(cfg, calls[i])
      modifies this, tm, tm.heap
      ensures Valid() && inint && ticking == old(ticking)
      ensures IsRun(old(Abs()), ops) && Abs() == After(old(Abs()), ops)
      ensures ops == seq(|calls|, i requires 0 <= i < |calls| => Intr(calls[i]))
    {
      hide Rep, Abs, Inv, Step, Enabled, ArgsOk, FromInterrupt;
      ops := [];
      ghost var k0 := Abs();
      AbsFields();
      var i := 0;
      while i < |calls|
        invariant 0 <= i <= |calls| && Valid() && inint && ticking == old(ticking)
        invariant IsRun(k0, ops) && Abs() == After(k0, ops)
        invariant ops == seq(i, j requires 0 <= j < i => Intr(calls[j]))
      {
        ghost var k := Abs();
        AbsFields();
        var _ := IntrCall(calls[i]);
        SameContext(k, Intr(calls[i]));
        AbsFields();
        RunOne(k, Intr(calls[i]));
        RunSplit(k0, ops, [Intr(calls[i])]);
        ops := ops + [Intr(calls[i])];
        i := i + 1;
      }
    }

    /** signal_time.  `script[j]` are the calls made, by the handler that is called or by
        interrupts that come in between, after the j-th event of the tick. */
    method SignalTime(script: seq<seq<Call>>) returns (ghost ops: seq<Op>)
      requires Valid() && inint && !ticking
      requires forall j :: 0 <= j < |script| ==>
                 forall i :: 0 <= i < |script[j]| ==> FromInterrupt(script[j][i]) && ArgsOk(cfg, script[j][i])
      modifies this, tm, tm.heap
      ensures Valid() && !ticking
      ensures IsRun(old(Abs()), [TickBegin] + ops + [TickEnd])
      ensures Abs() == After(old(Abs()), [TickBegin] + ops + [TickEnd])
      ensures forall i :: 0 <= i < |ops| ==> InTick(ops[i])
      ensures forall b :: b in tm.ev ==> cfg.per.Floor(tm.n) < tm.ev[b]
    {
      hide Rep, Abs, Inv, Step, Enabled, ArgsOk, FromInterrupt, Period.Floor, WorkOf, TopIsDue;
      ghost var k0 := Abs();
      BeginTick();
      ghost var k1 := Abs();
      RunOne(k0, TickBegin);
      ops := [];
      var j := 0;
      var due := TickDue();
      while due
        invariant Valid() && inint && ticking
        invariant IsRun(k1, ops) && Abs() == After(k1, ops)
        invariant forall i :: 0 <= i < |ops| ==> InTick(ops[i])
        invariant due ==> TopIsDue()
        invariant !due ==> forall b :: b in tm.ev ==> cfg.per.Floor(tm.n) < tm.ev[b]
        decreases WorkOf(Abs()), if due then 1 else 0
      {
        ghost var k := Abs();
        ghost var b := FireTop();
        RunOne(k, Fire(b));
        RunSplit(k1, ops, [Fire(b)]);
        ops := ops + [Fire(b)];
        ghost var k' := Abs();
        FireWork(k, b);
        AbsFields();
        ghost var calls := [];
        if j < |script| {
          calls := RunHandler(script[j]);
          RunSplit(k1, ops, calls);
          HandlerWork(k', calls);
        }
        assert calls == [] ==> ops + calls == ops;
        ops := ops + calls;
        j := j + 1;
        due := TickDue();
      }
      EndTick();
      RunSplit(k0, [TickBegin], ops);
      RunOne(After(k1, ops), TickEnd);
      RunSplit(k0, [TickBegin] + ops, [TickEnd]);
    }

    // ----- Start-up and interrupts ------------------------------------------

    /** initialize_cyclic for the handlers with TA_STA. */
    method StartCyclics(sta: seq<nat>)
      requires Rep() && Core(Abs(), -1, {}) && tm.n == 0 && !ticking && tm.ev == map[]
      requires NoDup(sta) && forall i :: i in sta ==> i < |cfg.cyc|
      modifies `cycsta, `evttim, `evt, tm, tm.heap
      ensures Rep() && Some(Abs()) == Started(old(Abs()), sta)
    {
      hide ReadyOk, Flatten, TimeOk, CbacksOk, Core, ToWord, InWindow, StartAll;
      HandlerTable(Abs());
      TimeTable();
      var j := 0;
      while j < |sta|
        invariant 0 <= j <= |sta| && Rep() && |cycsta| == |evttim| == |evt| == |cfg.cyc| && CfgOk(cfg)
        invariant tm.n == 0 && !ticking && tm.ev.Keys == set i | i in sta[..j] :: Cyc(i)
        invariant Started(Abs(), sta[j..]) == Started(old(Abs()), sta)
      {
        ghost var k := Abs();
        var i := sta[j];
        assert i in sta;
        assert sta[j..][1..] == sta[j + 1..] && sta[j..][0] == i;
        assert sta[..j + 1] == sta[..j] + [i];
        cycsta := cycsta[i := true];
        FirstPhase(cfg.cyc[i].cycphs);
        EnqueueCyc(i, ToWord(cfg.cyc[i].cycphs), cfg.cyc[i].cycphs);
        TimeTable();
        StartOne(k, sta[j..]);
        j := j + 1;
      }
      assert sta[j..] == [];
      NoneStarted(Abs());
    }

    lemma TimeTable()
      requires TimeOk()
      ensures |evttim| == |evt|
    {
    }

    lemma FirstPhase(t: nat)
      requires TimeOk() && tm.n == 0 && !ticking && t <= TMAX_RELTIM
      ensures InWindow(t, tm.min)
    {
    }

    /** initialize_task for the tasks with TA_ACT, in the order of the task table. */
    method ActivateTasks(act: seq<nat>)
      requires Rep() && Core(Abs(), -1, {}) && NoDup(act)
      requires forall t :: t in act ==> t < |tstat| && tstat[t].Dormant?
      modifies `tstat, `readyQueue, `readyPrimap, `schedtsk
      ensures Rep() && ActivateAll(old(Abs()), act) == Abs()
    {
      hide Rep, Flatten, Core, NoDup, ActivateAll;
      var j := 0;
      assert act[0..] == act;
      while j < |act|
        invariant 0 <= j <= |act| && Rep() && Core(Abs(), -1, {})
        invariant forall t :: t in act[j..] ==> t < |tstat| && tstat[t].Dormant?
        invariant NoDup(act[j..]) && forall t :: t in act ==> t < |old(Abs()).t.tstat|
        invariant ActivateAll(Abs(), act[j..]) == ActivateAll(old(Abs()), act)
      {
        assert act[j..][0] == act[j] && act[j..][1..] == act[j + 1..];
        ActivateFirst(act[j..]);
        j := j + 1;
      }
      assert act[j..] == [] && ActivateAll(Abs(), []) == Abs() by { NoneActivated(Abs()); }
    }

    method ActivateFirst(act: seq<nat>)
      requires Rep() && Core(Abs(), -1, {}) && NoDup(act) && act != []
      requires forall t :: t in act ==> t < |tstat| && tstat[t].Dormant?
      modifies `tstat, `readyQueue, `readyPrimap, `schedtsk
      ensures Rep() && Core(Abs(), -1, {}) && NoDup(act[1..])
      ensures forall t :: t in act[1..] ==> t < |tstat| && tstat[t].Dormant?
      ensures ActivateAll(Abs(), act[1..]) == ActivateAll(old(Abs()), act)
    {
      hide ReadyOk, Flatten, TimeOk, Core, Activate, NoDup, ActivateAll;
      ghost var k := Abs();
      ActivateStep(k, act);
      TaskFacts(k, act[0]);
      var _ := MakeActive(act[0]);
    }

    /** sta_ker: the tables are initialized and the first dispatch takes place. */
    method StartKernel(act: seq<nat>, sta: seq<nat>)
      requires Valid() && Abs() == Asleep(cfg) && BootOk(cfg, act, sta)
      modifies this, tm, tm.heap
      ensures Valid() && Abs() == Boot(cfg, act, sta)
    {
      hide Rep, Core, Inv, StartAll, ActivateAll, Flatten;
      InvCore(Abs());
      InvShape(Abs());
      InvCfg(Abs());
      StartAllCore(Abs(), sta);
      StartCyclics(sta);
      ActivateTasks(act);
      DispatchNow();
      BootInv(cfg, act, sta);
    }

    method DispatchNow()
      requires Rep() && Dsp(Abs())
      modifies `runtsk
      ensures Rep() && Abs() == Dispatch(old(Abs()))
    {
      hide ReadyOk, TimeOk, CbacksOk;
      HeadIsSched();
      runtsk := schedtsk;
    }

    /** Entry of interrupt handling. */
    method EnterInterrupt()
      requires Valid() && !inint
      modifies `inint
      ensures Valid() && Enabled(old(Abs()), EnterInt) && Abs() == Step(old(Abs()), EnterInt).0
    {
      hide ReadyOk, Flatten, Inv, TimeOk, CbacksOk;
      EnabledIff(Abs(), EnterInt);
      StepInv(Abs(), EnterInt);
      inint := true;
    }

    /** Exit of interrupt handling: the dispatch that was asked for takes place. */
    method ExitInterrupt()
      requires Valid() && inint && !ticking
      modifies `inint, `reqflg, `runtsk
      ensures Valid() && Enabled(old(Abs()), ExitInt) && Abs() == Step(old(Abs()), ExitInt).0
    {
      hide Rep, Flatten, Inv, Step, Enabled;
      ExitStep(Abs());
      HeadIsSched();
      inint := false;
      if reqflg {
        reqflg := false;
        if dspflg {
          runtsk := schedtsk;
        }
      }
    }
  }

  // ----- Facts about the ready queues ---------------------------------------

  lemma SetBitAll(m: bv16, p: nat)
    requires p < TNUM_TPRI
    ensures forall q {:trigger IsSet(m, q)} {:trigger IsSet(SetBits(m, PrimapBit(p)), q)} :: 0 <= q < TNUM_TPRI ==>
              (IsSet(SetBits(m, PrimapBit(p)), q) <==> p == q || IsSet(m, q))
  {
    hide IsSet, SetBits, PrimapBit;
    forall q | 0 <= q < TNUM_TPRI
      ensures IsSet(SetBits(m, PrimapBit(p)), q) <==> p == q || IsSet(m, q)
    {
      SetBit(m, p, q);
    }
  }

  lemma ClearBitAll(m: bv16, p: nat)
    requires p < TNUM_TPRI
    ensures forall q {:trigger IsSet(m, q)} {:trigger IsSet(ClearBits(m, PrimapBit(p)), q)} :: 0 <= q < TNUM_TPRI ==>
              (IsSet(ClearBits(m, PrimapBit(p)), q) <==> p != q && IsSet(m, q))
  {
    hide IsSet, ClearBits, PrimapBit;
    forall q | 0 <= q < TNUM_TPRI
      ensures IsSet(ClearBits(m, PrimapBit(p)), q) <==> p != q && IsSet(m, q)
    {
      ClearBit(m, p, q);
    }
  }

  lemma InsertLastHead(q: seq<nat>, pri: seq<nat>, t: nat)
    ensures InsertLast(q, pri, t) != []
    ensures InsertLast(q, pri, t)[0] == if q == [] || Pri(pri, t) < Pri(pri, q[0]) then t else q[0]
  {
  }

  lemma InsertFirstHead(q: seq<nat>, pri: seq<nat>, t: nat)
    ensures InsertFirst(q, pri, t) != []
    ensures InsertFirst(q, pri, t)[0] == if q == [] || Pri(pri, t) <= Pri(pri, q[0]) then t else q[0]
  {
  }

  lemma RemoveHead(q: seq<nat>, t: nat)
    requires t in q && NoDup(q)
    ensures q[0] != t ==> Remove(q, t) != [] && Remove(q, t)[0] == q[0]
    ensures q[0] == t ==> Remove(q, t) == [] || Remove(q, t)[0] != t
  {
  }

  lemma InOwnQueue(rd: seq<seq<nat>>, pri: seq<nat>, t: nat)
    requires Placed(rd, pri) && t in Flatten(rd)
    ensures Pri(pri, t) < |rd| && t in rd[Pri(pri, t)] && Flatten(rd) != []
  {
    FlattenElem(rd, t);
  }

  lemma PlacedRemove(rd: seq<seq<nat>>, pri: seq<nat>, t: nat)
    requires Placed(rd, pri) && Pri(pri, t) < |rd|
    ensures Placed(rd[Pri(pri, t) := Remove(rd[Pri(pri, t)], t)], pri)
  {
  }

  lemma BitmapEmpty(rd: seq<seq<nat>>, m: bv16)
    requires |rd| == TNUM_TPRI && BitsOk(rd, m)
    ensures m == 0 ==> Flatten(rd) == []
    ensures m != 0 ==> Flatten(rd) != []
  {
    hide IsSet;
    SomeBit(m);
    if m == 0 {
      NoQueue(rd);
    } else {
      var p :| 0 <= p < TNUM_TPRI && IsSet(m, p);
      FlattenSplit(rd, p);
    }
  }

  /** Taken out of its queue, a task may change its priority. */
  lemma RestPlaced(rd: seq<seq<nat>>, pri: seq<nat>, t: nat, p: nat)
    requires Placed(rd, pri) && t < |pri| && pri[t] < |rd| && NoDup(Flatten(rd)) && t in rd[pri[t]]
    ensures Placed(rd[pri[t] := Remove(rd[pri[t]], t)], pri[t := p])
  {
    hide Flatten, NoDup;
    FlattenSplit(rd, pri[t]);
    NoDupPart(Flatten(rd[..pri[t]]), rd[pri[t]], Flatten(rd[pri[t] + 1..]));
    RemoveNoDup(rd[pri[t]], t);
    var rd1 := rd[pri[t] := Remove(rd[pri[t]], t)];
    forall q, x | 0 <= q < |rd1| && x in rd1[q]
      ensures x != t && x in rd[q]
    {
    }
  }

  lemma NoDupPart(a: seq<nat>, q: seq<nat>, b: seq<nat>)
    requires NoDup(a + q + b)
    ensures NoDup(q)
  {
    forall i, j | 0 <= i < j < |q|
      ensures q[i] != q[j]
    {
      assert (a + q + b)[|a| + i] == q[i] && (a + q + b)[|a| + j] == q[j];
    }
  }

  lemma ShapeFacts(k: K, t: nat)
    requires Shape(k) && t < |k.t.tstat|
    ensures |k.t.pri| == |k.t.tstat| && k.t.pri[t] < TNUM_TPRI && |k.q.wq| == |k.cfg.obj|
  {
  }

  lemma JoinPlaced(rd: seq<seq<nat>>, pri: seq<nat>, t: nat)
    requires Placed(rd, pri) && Pri(pri, t) < |rd|
    ensures var p := Pri(pri, t); Placed(rd[p := [t] + rd[p]], pri) && Placed(rd[p := rd[p] + [t]], pri)
  {
  }

  lemma OtherPlaced(rd: seq<seq<nat>>, pri: seq<nat>, m: bv16, sched: Option<nat>, t: nat, p: nat)
    requires ReadyOk(rd, pri, m, sched) && t < |pri| && t !in Flatten(rd)
    ensures ReadyOk(rd, pri[t := p], m, sched)
  {
    FlattenElem(rd, t);
  }

  /** All tasks behind the head of the list have at most its priority. */
  lemma RestBehind(q: seq<nat>, pri: seq<nat>, t: nat, p: nat)
    requires t in q && NoDup(q) && t < |pri| && forall x :: x in q ==> Pri(pri, q[0]) <= Pri(pri, x)
    ensures var r := Remove(q, t); r != [] ==> Pri(pri[t := p], r[0]) == Pri(pri, r[0]) >= Pri(pri, q[0])
  {
    RemoveNoDup(q, t);
    var r := Remove(q, t);
    assert r != [] ==> r[0] in r;
  }

  lemma RotatedQueue(rd: seq<seq<nat>>, pri: seq<nat>, p: nat)
    requires Placed(rd, pri) && p < |rd| && rd[p] != [] && NoDup(Flatten(rd))
    ensures var t := rd[p][0];
            && (|rd[p]| > 1 ==> rd[p][1] != t)
            && (|rd[p]| == 1 ==> InsertLast(Remove(Flatten(rd), t), pri, t) == Flatten(rd))
            && Placed(rd[p := rd[p][1..] + [t]], pri)
            && Flatten(rd[p := rd[p][1..] + [t]]) == InsertLast(Remove(Flatten(rd), t), pri, t)
  {
    hide Flatten, NoDup, InsertLast;
    var t := rd[p][0];
    assert t in rd[p];
    SplitNoDup(rd, p);
    DeleteIsRemove(rd, pri, t);
    var rd1 := rd[p := Remove(rd[p], t)];
    assert Remove(rd[p], t) == rd[p][1..];
    PlacedRemove(rd, pri, t);
    AppendIsInsertLast(rd1, pri, t);
    assert rd1[p := rd1[p] + [t]] == rd[p := rd[p][1..] + [t]];
    if |rd[p]| == 1 {
      assert rd[p][1..] + [t] == rd[p];
      assert rd[p := rd[p]] == rd;
    }
  }

  lemma SplitNoDup(rd: seq<seq<nat>>, p: nat)
    requires p < |rd| && NoDup(Flatten(rd))
    ensures |rd[p]| > 1 ==> rd[p][1] != rd[p][0]
  {
    FlattenSplit(rd, p);
    var n := |Flatten(rd[..p])|;
    if |rd[p]| > 1 {
      assert Flatten(rd)[n] == rd[p][0] && Flatten(rd)[n + 1] == rd[p][1];
    }
  }

  // ----- Facts about waiting ------------------------------------------------

  /** A task that is in no wait queue any more is woken. */
  function Finish(k: K, t: nat, er: Er): K
    requires t < |k.t.tstat| == |k.t.winfo| && k.t.tstat[t].Waiting?
  {
    var k1 := Disarm(k, t);
    Wake(k1.(t := k1.t.(winfo := k1.t.winfo[t := Wercd(er)])), t)
  }

  lemma TaskBlock(c: Cfg, t: nat)
    requires t < |c.ipri|
    ensures Tsk(t) in BlockSet(c)
  {
    assert AllBlocks(c)[t] == Tsk(t);
  }

  /** A ready task is once in the ready list, and has no timer. */
  lemma ReadyTask(k: K, t: nat)
    requires Core(k, -1, {}) && t < |k.t.tstat| && k.t.tstat[t].Runnable?
    ensures t in k.q.rq && NoDup(k.q.rq) && Tsk(t) !in k.e.tmr && Shape(k)
    ensures |k.t.tstat| == |k.t.pri| == |k.t.winfo| == |k.cfg.ipri| == |k.t.held| == |k.t.bpri| == |k.t.flag|
    ensures |k.q.wq| == |k.cfg.obj| == |k.q.loc| == |k.q.cnt|
    ensures k.t.pri[t] < TNUM_TPRI
  {
    hide OrderOk, OwnOk, PriOk, SemOk, IdleOk, ClockOk, CfgOk;
  }

  /** The first waiter of an object can be woken. */
  lemma WaiterFacts(k: K, o: nat)
    requires Core(k, -1, {}) && o < |k.q.wq| && k.q.wq[o] != []
    ensures Sane(k)
    ensures var t := k.q.wq[o][0];
            && t < |k.t.tstat| == |k.t.pri| == |k.t.winfo| && k.t.pri[t] < TNUM_TPRI
            && k.t.tstat[t].Waiting? && (k.t.winfo[t].Timer? <==> Tsk(t) in k.e.tmr)
            && t !in k.q.rq
  {
    hide OrderOk, OwnOk, PriOk, SemOk, IdleOk, ClockOk, CfgOk, WqOk, HeldOk, NoDup;
    CoreSane(k, -1, {});
    assert k.q.wq[o][0] in k.q.wq[o];
  }

  ghost function Drained(k: K, o: nat): K
    requires Sane(k) && o < |k.q.wq|
  {
    Drain(k, o)
  }

  lemma NothingToDrain(k: K, o: nat)
    requires Sane(k) && o < |k.q.wq| && k.q.wq[o] == []
    ensures Drained(k, o) == k
  {
  }

  lemma DrainStep(k: K, o: nat)
    requires Core(k, -1, {}) && o < |k.q.wq| && k.q.wq[o] != []
    ensures Sane(k) && k.q.wq[o][0] < |k.t.tstat| == |k.t.winfo| && k.t.tstat[k.q.wq[o][0]].Waiting?
    ensures var k1 := PopWake(k, o, E_DLT);
            && Core(k1, -1, {}) && Sane(k1) && Drained(k, o) == Drained(k1, o)
            && |k1.q.wq| == |k.q.wq| && |k1.q.wq[o]| < |k.q.wq[o]|
  {
    hide Core, PopWake, EndWait;
    CoreShape(k);
    CoreLinks(k, -1, {});
    PopWakeOk(k, o, E_DLT);
    PopIsEndWait(k, -1, o, E_DLT);
    EndWaitCore(k, -1, {}, k.q.wq[o][0], E_DLT);
    CoreShape(PopWake(k, o, E_DLT));
  }

  lemma ShapeLengths(k: K)
    requires Shape(k)
    ensures |k.t.tstat| == |k.t.pri| == |k.t.winfo| == |k.t.held| == |k.t.bpri| && |k.q.loc| == |k.q.wq| == |k.cfg.obj|
    ensures forall t {:trigger k.t.pri[t]} :: 0 <= t < |k.t.pri| ==> k.t.pri[t] < TNUM_TPRI
  {
  }

  lemma SameTables(k: K)
    requires Shape(k)
    ensures |k.t.tstat| == |k.cfg.ipri| == |k.t.flag|
  {
  }

  // ----- Facts about termination --------------------------------------------

  /** The state without the list of mutexes that task `t` is about to release. */
  function Bare(k: K, t: nat): K
    requires t < |k.t.held|
  {
    k.(t := k.t.(held := k.t.held[t := []]))
  }

  /** The mutexes still listed for task `t` are the ones in transit. */
  ghost predicate Releasing(k: K, t: nat) {
    && t < |k.t.held| == |k.t.tstat|
    && Core(Bare(k, t), t, Elems(k.t.held[t])) && NoDup(k.t.held[t])
    && (forall m :: m in k.t.held[t] ==> m < |k.q.loc| && k.q.loc[m] == Some(t))
  }

  ghost function Released(k: K, t: nat): Option<K> {
    if Sane(k) && t < |k.t.tstat| then Some(ReleaseAll(k, t)) else None
  }

  lemma ReleaseStart(k: K, t: nat)
    requires Core(k, t, {}) && t < |k.t.tstat|
    ensures Sane(k) && t < |k.t.held| && Releasing(k, t)
    ensures Released(k, t) == Some(ReleaseAll(k, t))
  {
    hide Core;
    CoreSane(k, t, {});
    DropHeld(k, t);
  }

  lemma ReleaseEnd(k: K, t: nat)
    requires t < |k.t.held| && k.t.held[t] == [] && Releasing(k, t)
    ensures Released(k, t) == Some(k)
  {
    hide Core;
    assert k.t.held[t := []] == k.t.held;
    assert Elems([]) == {};
    CoreSane(k, t, {});
  }

  /** One mutex less to release. */
  lemma ReleaseRound(k: K, t: nat)
    requires t < |k.t.held| && k.t.held[t] != [] && Releasing(k, t)
    ensures var m := k.t.held[t][0];
            var k0 := k.(t := k.t.(held := k.t.held[t := k.t.held[t][1..]]));
            && Sane(k0) && m < |k0.q.wq|
            && (k0.q.wq[m] != [] ==>
                  var u := k0.q.wq[m][0];
                  && u < |k0.t.tstat| == |k0.t.pri| == |k0.t.winfo| && k0.t.pri[u] < TNUM_TPRI
                  && k0.t.tstat[u].Waiting? && (k0.t.winfo[u].Timer? <==> Tsk(u) in k0.e.tmr)
                  && u !in k0.q.rq)
            && t < |HandOver(k0, m).t.held| && |HandOver(k0, m).t.held[t]| < |k.t.held[t]|
            && Releasing(HandOver(k0, m), t)
            && Released(HandOver(k0, m), t) == Released(k, t)
  {
    hide Core, HandOver;
    var ms := k.t.held[t];
    var m := ms[0];
    var b := Bare(k, t);
    var k0 := k.(t := k.t.(held := k.t.held[t := ms[1..]]));
    ReleaseStep(b, t, ms);
    HeldBack(b, k, t, ms);
    HeldBack(b, k0, t, ms[1..]);
    if b.q.wq[m] != [] {
      NotOwnWaiter(b, t, Elems(ms), m);
    }
    HandOverHeld(k0, m, t);
    var k1 := HandOver(k0, m);
    assert Bare(k0, t) == b && Bare(k1, t) == HandOver(b, m);
    HeldBack(Bare(k1, t), k1, t, ms[1..]);
    assert ReleaseAll(k, t) == ReleaseList(b, ms);
    assert ReleaseAll(k1, t) == ReleaseList(HandOver(b, m), ms[1..]);
  }

  /** Giving the list of mutexes back keeps a state sane. */
  lemma HeldBack(b: K, k: K, t: nat, ms: seq<nat>)
    requires Sane(b) && t < |b.t.held| && k == b.(t := b.t.(held := b.t.held[t := ms]))
    requires forall m :: m in ms ==> b.cfg.IsMtx(m)
    ensures Sane(k)
  {
    forall o | 0 <= o < |k.q.wq|
      ensures NoDup(k.q.wq[o]) && forall u :: u in k.q.wq[o] ==> WaitsOn(k, u, o)
    {
      assert forall u :: u in b.q.wq[o] ==> WaitsOn(b, u, o);
    }
  }

  lemma NotOwnWaiter(k: K, x: int, ys: set<nat>, m: nat)
    requires Core(k, x, ys) && m < |k.q.wq| && k.q.wq[m] != []
    ensures var u := k.q.wq[m][0];
            && u != x && u < |k.t.tstat| == |k.t.pri| == |k.t.winfo| && k.t.pri[u] < TNUM_TPRI
            && k.t.tstat[u].Waiting? && (k.t.winfo[u].Timer? <==> Tsk(u) in k.e.tmr)
            && u !in k.q.rq
  {
    hide OrderOk, OwnOk, PriOk, SemOk, IdleOk, ClockOk, CfgOk, NoDup;
    assert k.q.wq[m][0] in k.q.wq[m];
  }

  /** What a task that is not the first waiter holds does not matter to a hand-over. */
  lemma HandOverHeld(k: K, m: nat, t: nat)
    requires Shape(k) && m < |k.q.wq| && t < |k.t.held|
    requires k.q.wq[m] != [] ==> k.q.wq[m][0] < |k.t.tstat| && k.t.tstat[k.q.wq[m][0]].Waiting? && k.q.wq[m][0] != t
    ensures |HandOver(k, m).t.held| == |k.t.held|
    ensures HandOver(k, m).t.held[t] == k.t.held[t] && Bare(HandOver(k, m), t) == HandOver(Bare(k, t), m)
  {
    if k.q.wq[m] != [] {
      var u := k.q.wq[m][0];
      var h := k.t.held[u] + [m];
      assert k.t.held[u := h][t := []] == k.t.held[t := []][u := h];
    }
  }

  lemma TerminateFacts(k: K, t: nat)
    requires Core(k, t, {}) && t < |k.t.tstat|
    ensures Sane(k)
    ensures var k1 := ReleaseAll(k, t);
            && k1.cfg == k.cfg && Shape(k1) && CfgOk(k1.cfg) && t < |k1.t.tstat| && t !in k1.q.rq && Tsk(t) !in k1.e.tmr
            && |k1.t.tstat| == |k1.t.pri| == |k1.t.flag| == |k1.cfg.ipri| && k1.cfg.ipri[t] < TNUM_TPRI
            && Shape(KernelSpec.MakeDormant(k1, t))
  {
    hide OwnOk, OrderOk, PriOk, SemOk, IdleOk, ClockOk, CfgOk, NoDup, ReleaseList;
    CoreSane(k, t, {});
    DropHeld(k, t);
    ReleaseListCore(Bare(k, t), t, k.t.held[t]);
    IniPri(k.cfg, t);
  }

  // ----- Facts about service calls ------------------------------------------

  lemma TaskFacts(k: K, t: nat)
    requires Core(k, -1, {}) && t < |k.t.tstat|
    ensures Shape(k)
    ensures NoDup(k.q.rq) && (k.t.tstat[t].Runnable? <==> t in k.q.rq)
    ensures |k.t.tstat| == |k.t.pri| == |k.t.winfo| == |k.cfg.ipri| == |k.t.held| == |k.t.bpri| == |k.t.flag|
    ensures |k.q.wq| == |k.cfg.obj| == |k.q.loc| == |k.q.cnt|
    ensures k.t.pri[t] < TNUM_TPRI
    ensures if k.t.tstat[t].Waiting? then k.t.winfo[t].Timer? <==> Tsk(t) in k.e.tmr else Tsk(t) !in k.e.tmr
  {
    hide OrderOk, OwnOk, PriOk, SemOk, IdleOk, ClockOk, CfgOk;
  }

  lemma DetachRunner(k: K, r: nat)
    requires Core(k, -1, {}) && r < |k.t.tstat| && k.t.tstat[r].Runnable?
    ensures Shape(k)
    ensures Core(KernelSpec.MakeNonRunnable(k, r), r, {}) && Sane(KernelSpec.MakeNonRunnable(k, r))
  {
    hide Core;
    CoreShape(k);
    DetachCore(k, r);
    assert Detach(k, r) == KernelSpec.MakeNonRunnable(k, r);
    CoreSane(Detach(k, r), r, {});
  }

  lemma MinPri(k: K, r: nat, t: nat)
    requires Sane(k) && r < |k.t.tstat| && t < |k.t.tstat|
    ensures |k.cfg.minpri| == |k.cfg.ipri| == |k.t.tstat| && k.cfg.ipri[t] < TNUM_TPRI
  {
  }

  lemma RebaseShape(k: K, t: nat, b: nat)
    requires Shape(k) && t < |k.t.tstat| && b < TNUM_TPRI
    ensures t < |k.t.bpri| && Shape(k.(t := k.t.(bpri := k.t.bpri[t := b])))
  {
  }

  lemma GivenUp(k: K, t: nat, m: nat)
    requires Core(k, -1, {}) && t < |k.t.tstat| && k.cfg.IsMtx(m) && m < |k.q.loc| && k.q.loc[m] == Some(t)
    ensures Shape(k) && m < |k.q.wq|
    ensures var k1 := GiveUp(k, t, m);
            && Sane(k1) && |k1.q.wq| == |k.q.wq|
            && (k1.q.wq[m] != [] ==>
                  var u := k1.q.wq[m][0];
                  && u < |k1.t.tstat| == |k1.t.pri| == |k1.t.winfo| && k1.t.pri[u] < TNUM_TPRI
                  && k1.t.tstat[u].Waiting? && (k1.t.winfo[u].Timer? <==> Tsk(u) in k1.e.tmr)
                  && u !in k1.q.rq)
  {
    hide Core, GiveUp;
    CoreShape(k);
    MutexFacts(k, m);
    GiveUpOk(k, t, m);
    GiveUpCore(k, {}, t, m);
    assert {} + {m} == {m};
    CoreSane(GiveUp(k, t, m), -1, {m});
    if GiveUp(k, t, m).q.wq[m] != [] {
      NotOwnWaiter(GiveUp(k, t, m), -1, {m}, m);
    }
  }

  lemma GiveUpLoc(k: K, t: nat, m: nat)
    requires Core(k, -1, {}) && t < |k.t.tstat| && k.cfg.IsMtx(m) && m < |k.q.loc| && k.q.loc[m] == Some(t)
    ensures Shape(k) && m < |k.q.wq|
    ensures GiveUp(k, t, m).q.loc == k.q.loc
  {
    hide Core, GiveUp;
    CoreShape(k);
    MutexFacts(k, m);
    GiveUpCore(k, {}, t, m);
  }

  lemma TaskSizes(k: K)
    requires Core(k, -1, {})
    ensures |k.t.tstat| == |k.t.winfo|
  {
    hide LinksOk, OrderOk, OwnOk, PriOk, TmrOk, SemOk, IdleOk, ClockOk, CfgOk;
  }

  lemma SaneParts(k: K)
    requires Sane(k)
    ensures Shape(k) && WqOk(k)
  {
  }

  lemma UnlinkTasks(k: K, t: nat)
    requires t < |k.t.tstat|
    ensures Unlink(k, t).t == k.t
  {
  }

  lemma SemTable(k: K, o: nat)
    requires Shape(k) && k.cfg.IsSem(o)
    ensures o < |k.q.wq| == |k.q.cnt| == |k.cfg.obj|
  {
  }

  lemma SemTableAfter(k: K, k1: K, o: nat)
    requires Sane(k) && o < |k.q.wq| && k1 == Drained(k, o)
    ensures |k1.q.cnt| == |k.q.cnt|
  {
    DrainOk(k, o);
  }

  lemma ReadyOnce(k: K)
    requires Core(k, -1, {})
    ensures NoDup(k.q.rq) && Shape(k)
    ensures forall t {:trigger k.t.bpri[t]} :: 0 <= t < |k.t.bpri| ==> k.t.bpri[t] < TNUM_TPRI
  {
    hide OrderOk, OwnOk, PriOk, TmrOk, SemOk, IdleOk, ClockOk, CfgOk;
  }

  lemma CycBlock(c: Cfg, i: nat)
    requires i < |c.cyc|
    ensures Cyc(i) in BlockSet(c)
  {
    assert AllBlocks(c)[|c.ipri| + i] == Cyc(i);
  }

  lemma HandlerFacts(k: K, i: nat)
    requires Core(k, -1, {}) && i < |k.cfg.cyc|
    ensures |k.e.cycsta| == |k.e.evttim| == |k.cfg.cyc| && k.cfg.cyc[i].cycphs <= TMAX_RELTIM
    ensures k.e.cycsta[i] <==> Cyc(i) in k.e.tmr
    ensures Cyc(i) in BlockSet(k.cfg)
  {
    hide OrderOk, OwnOk, PriOk, SemOk, IdleOk, ClockOk, LinksOk, BlockSet;
    CycBlock(k.cfg, i);
  }

  lemma AlarmFacts(k: K, i: nat)
    requires Core(k, -1, {}) && i < k.cfg.nalm
    ensures |k.e.almsta| == k.cfg.nalm
    ensures k.e.almsta[i] <==> Alm(i) in k.e.tmr
    ensures Alm(i) in BlockSet(k.cfg)
  {
    hide OrderOk, OwnOk, PriOk, SemOk, IdleOk, ClockOk, LinksOk;
    assert AllBlocks(k.cfg)[|k.cfg.ipri| + |k.cfg.cyc| + i] == Alm(i);
  }

  lemma SameUpdate(ev: map<Blk, int>, b: Blk, t: int)
    ensures (ev - {b})[b := t] == ev[b := t]
  {
  }

  /** The calls that DoCall leads to. */
  lemma SystemAnswers(k: K, r: nat, call: Call)
    requires Core(k, -1, {}) && ArgsOk(k.cfg, call) && r < |k.t.tstat|
    requires call.RotRdq? || call.DisDsp? || call.EnaDsp? || call.ChgIpm?
    ensures Sane(k) && r < |k.t.bpri|
    ensures DoCall(k, r, call) ==
              match call
              case RotRdq(p) => DoRotRdq(k, if p.Some? then p.value else k.t.bpri[r])
              case DisDsp => (k.(c := k.c.(disdsp := true)), Ret(E_OK))
              case EnaDsp => (k.(c := k.c.(disdsp := false)), Ret(E_OK))
              case ChgIpm(ena) => (k.(c := k.c.(ipmflg := ena)), Ret(E_OK))
              case _ => (k, Ret(E_OK))
  {
    hide Core, DoRotRdq;
    CoreShape(k);
  }

  lemma HandlersAnswer(k: K, call: Call)
    requires Sane(k) && ArgsOk(k.cfg, call)
    ensures call.StaCyc? ==> DoStaCyc(k, call.i).1 == Ret(E_OK)
    ensures call.StpCyc? ==> DoStpCyc(k, call.i).1 == Ret(E_OK)
    ensures call.StpAlm? ==> DoStpAlm(k, call.i).1 == Ret(E_OK)
  {
  }

  lemma InvShape(k: K)
    requires Inv(k)
    ensures Shape(k) && k.cfg.per.Ok()
  {
    hide LinksOk, OrderOk, OwnOk, PriOk, TmrOk, SemOk, IdleOk, ClockOk, RunOk, Shape;
  }

  /** The event of a waiting task, from the state in which its timer is gone. */
  lemma TimedOut(k: K, t: nat)
    requires Shape(k) && Tsk(t) in k.e.tmr && t < |k.t.tstat| && k.t.tstat[t].Waiting?
    ensures FireOk(k, Tsk(t))
    ensures var k1 := k.(e := k.e.(tmr := k.e.tmr - {Tsk(t)}));
            var dly := k.t.tstat[t].fac.WaitDly?;
            var k2 := if dly then k1 else Unlink(k1, t);
            var k3 := k2.(t := k2.t.(winfo := k2.t.winfo[t := Wercd(if dly then E_OK else E_TMOUT)]));
            && t < |k3.t.tstat| && k3.t.tstat[t].Waiting?
            && DoFire(k, Tsk(t)) == Request(k, Wake(k3, t))
  {
  }

  /** A cyclic handler that is due has its next activation within reach. */
  lemma CycNext(k: K, i: nat)
    requires Inv(k) && Cyc(i) in k.e.tmr && k.cfg.per.Ok() && k.e.tmr[Cyc(i)] <= k.cfg.per.Floor(k.e.n)
    ensures i < |k.e.evttim| == |k.cfg.cyc| && k.e.evttim[i] == k.e.tmr[Cyc(i)]
    ensures var t := k.e.evttim[i] + k.cfg.cyc[i].cyctim;
            Lowest(k.cfg.per, k.e) < t <= Highest(k.cfg.per, k.e)
    ensures k.e.ticking ==> k.e.n > 0
  {
    hide LinksOk, OrderOk, OwnOk, PriOk, SemOk, IdleOk, RunOk, Period.Floor, Period.Ceil;
    NextActivation(k, i);
  }

  // ----- Facts about runs ---------------------------------------------------

  lemma RunOne(k: K, op: Op)
    requires Enabled(k, op)
    ensures IsRun(k, [op]) && After(k, [op]) == Step(k, op).0
  {
    hide Enabled, Step;
    assert [op][1..] == [];
  }

  ghost function WorkOf(k: K): nat {
    if k.cfg.per.Ok() then Work(k) else 0
  }

  /** The earliest registered event, if it is due, may happen. */
  lemma TopFires(k: K, b: Blk)
    requires Inv(k) && k.c.inint && k.e.ticking && k.cfg.per.Ok() && IsNext(k, b)
    ensures Enabled(k, Fire(b)) && Shape(k) && FireOk(k, b)
    ensures Step(k, Fire(b)).0 == DoFire(k, b) && Inv(DoFire(k, b))
  {
    hide Inv, Sane, DoFire, IsNext;
    InvShape(k);
    NextRegistered(k, b);
    Registered(k, b);
    EnabledIff(k, Fire(b));
    StepInv(k, Fire(b));
  }

  lemma FireWork(k: K, b: Blk)
    requires Inv(k) && Enabled(k, Fire(b))
    ensures var k1 := Step(k, Fire(b)).0; WorkOf(k1) < WorkOf(k) && k1.c.inint && k1.e.ticking && k1.cfg == k.cfg
  {
    hide Inv, Sane;
    InvShape(k);
    WorkShrinks(k, Fire(b));
    TickStep(k, Fire(b));
    FireContext(k, b);
  }

  lemma FireContext(k: K, b: Blk)
    requires Enabled(k, Fire(b))
    ensures Step(k, Fire(b)).0.c.inint
  {
    hide EndWait;
    if b.Tsk? {
      EndWaitFields(k, b.id, if k.t.tstat[b.id].fac.WaitDly? then E_OK else E_TMOUT);
    }
  }

  lemma HandlerWork(k: K, ops: seq<Op>)
    requires Inv(k) && k.e.ticking && IsRun(k, ops) && forall i :: 0 <= i < |ops| ==> ops[i].Intr?
    ensures WorkOf(After(k, ops)) <= WorkOf(k)
  {
    hide Inv, Work;
    InvShape(k);
    TickLoopEnds(k, ops);
  }

  lemma SameContext(k: K, op: Op)
    requires Inv(k) && Enabled(k, op) && op.Intr?
    ensures var k1 := Step(k, op).0; k1.c.inint == k.c.inint && k1.e.ticking == k.e.ticking && k1.cfg == k.cfg
  {
    hide Core, DoCall, Inv;
    InvCore(k);
    IntrCallPost(k, op.call);
  }

  // ----- Facts about start-up -----------------------------------------------

  ghost function Started(k: K, sta: seq<nat>): Option<K> {
    if |k.e.cycsta| == |k.e.evttim| == |k.cfg.cyc| && (forall i :: i in sta ==> i < |k.cfg.cyc|)
    then Some(StartAll(k, sta)) else None
  }

  lemma StartOne(k: K, sta: seq<nat>)
    requires sta != [] && |k.e.cycsta| == |k.e.evttim| == |k.cfg.cyc| && forall i :: i in sta ==> i < |k.cfg.cyc|
    ensures sta[0] in sta
    ensures var i, t := sta[0], k.cfg.cyc[sta[0]].cycphs;
            var k1 := k.(e := k.e.(cycsta := k.e.cycsta[i := true], evttim := k.e.evttim[i := t], tmr := k.e.tmr[Cyc(i) := t]));
            Started(k1, sta[1..]) == Started(k, sta)
  {
    assert sta[0] in sta && forall i :: i in sta[1..] ==> i in sta;
  }

  lemma NoneStarted(k: K)
    requires |k.e.cycsta| == |k.e.evttim| == |k.cfg.cyc|
    ensures Started(k, []) == Some(k)
  {
  }

  lemma HandlerTable(k: K)
    requires Core(k, -1, {})
    ensures |k.e.cycsta| == |k.e.evttim| == |k.cfg.cyc| && CfgOk(k.cfg)
  {
    hide OrderOk, OwnOk, PriOk, SemOk, IdleOk, ClockOk, LinksOk, TmrOk, CfgOk;
  }

  lemma NoneActivated(k: K)
    ensures ActivateAll(k, []) == k
  {
  }

  lemma ActivateStep(k: K, act: seq<nat>)
    requires Core(k, -1, {}) && NoDup(act) && act != []
    requires forall t :: t in act ==> t < |k.t.tstat| && k.t.tstat[t].Dormant?
    ensures act[0] < |k.t.tstat| && k.t.tstat[act[0]].Dormant?
    ensures var k1 := Activate(k, act[0]);
            && Core(k1, -1, {}) && NoDup(act[1..])
            && (forall t :: t in act[1..] ==> t < |k1.t.tstat| && k1.t.tstat[t].Dormant?)
            && ActivateAll(k1, act[1..]) == ActivateAll(k, act)
            && |k1.t.tstat| == |k.t.tstat|
  {
    hide Core;
    assert act[0] in act;
    CoreShape(k);
    ActivateCore(k, -1, {}, act[0]);
    forall t | t in act[1..]
      ensures t in act && t != act[0]
    {
      var j :| 0 <= j < |act[1..]| && act[1..][j] == t;
      assert act[j + 1] == t;
    }
  }

  /** What the exit of interrupt handling does. */
  lemma ExitStep(k: K)
    requires Inv(k) && k.c.inint && !k.e.ticking
    ensures Enabled(k, ExitInt) && Inv(Step(k, ExitInt).0)
    ensures var c := k.c.(inint := false, reqflg := false);
            Step(k, ExitInt).0 == k.(c := if k.c.reqflg && Dsp(k) then c.(run := Sched(k)) else c)
  {
    hide Inv, Sane;
    EnabledIff(k, ExitInt);
    StepInv(k, ExitInt);
  }

  lemma InvCfg(k: K)
    requires Inv(k)
    ensures CfgOk(k.cfg)
  {
    hide LinksOk, OrderOk, OwnOk, PriOk, TmrOk, SemOk, IdleOk, ClockOk, RunOk, Shape, CfgOk;
  }
}
