/** Alarm and cyclic handlers are neither early nor late, whoever starts them. */
module Handlers {
  import opened Basics
  import opened TimeEvent
  import opened KernelSpec
  import opened KernelInv
  import opened KernelCalls
  import opened Runs
  import opened Ticks
  import opened Laws

  // ----- Alarm handlers -----------------------------------------------------

  /** The step starts alarm handler `i` anew. */
  predicate SetsAlarm(op: Op, i: nat) {
    (op.Task? || op.Intr?) && op.call.StaAlm? && op.call.i == i
  }

  /** Only sta_alm moves the event of an alarm handler that stays started. */
  lemma AlarmStays(k: K, op: Op, i: nat)
    requires Inv(k) && Enabled(k, op) && Alm(i) in k.e.tmr && Alm(i) in Step(k, op).0.e.tmr && !SetsAlarm(op, i)
    ensures Step(k, op).0.e.tmr[Alm(i)] == k.e.tmr[Alm(i)]
  {
    hide DoCall, Sane, Inv, DoFire, Period.Ceil;
    InvSane(k);
    match op
    case Task(call) => CallTimers(k, k.c.run.value, call);
    case Intr(call) => CallTimers(k, 0, call);
    case Fire(b) => FireTimers(k, b);
    case _ =>
  }

  lemma {:induction false} AlarmStaysRun(k: K, ops: seq<Op>, i: nat)
    requires Inv(k) && IsRun(k, ops) && StaysArmed(k, ops, Alm(i))
    requires forall j :: 0 <= j < |ops| ==> !SetsAlarm(ops[j], i)
    ensures Alm(i) in After(k, ops).e.tmr && After(k, ops).e.tmr[Alm(i)] == k.e.tmr[Alm(i)]
    decreases |ops|
  {
    hide Inv, Step, Enabled;
    if ops != [] {
      StepInv(k, ops[0]);
      AlarmStays(k, ops[0], i);
      AlarmStaysRun(Step(k, ops[0]).0, ops[1..], i);
    }
  }

  /** A task or a handler starts alarm handler `i` with time `d`, at real time `now` counted in
      units of 1/deno milliseconds, after tick number `n` and before the next.  If the handler
      stays started and is called, that is in a tick later than `d` milliseconds after the call,
      and earlier than `d + 1` milliseconds and two tick periods after it. */
  lemma AlarmBounds(k: K, op: Op, i: nat, d: nat, ops: seq<Op>, now: real)
    requires Inv(k) && Enabled(k, op) && Calls(op, StaAlm(i, d)) && Step(k, op).1 == Ret(E_OK)
    requires IsRun(Step(k, op).0, ops) && StaysArmed(Step(k, op).0, ops, Alm(i))
    requires forall j :: 0 <= j < |ops| ==> !SetsAlarm(ops[j], i)
    requires Enabled(After(Step(k, op).0, ops), Fire(Alm(i)))
    requires (k.e.n * k.cfg.per.nume) as real <= now < ((k.e.n + 1) * k.cfg.per.nume) as real
    ensures var per := k.cfg.per;
            var n := After(Step(k, op).0, ops).e.n;
            && (n * per.nume) as real > now + (d * per.deno) as real
            && (n * per.nume) as real < now + ((d + 1) * per.deno + 2 * per.nume) as real
  {
    hide Inv, Step, Enabled, Period.Ok, Period.Ceil, Period.Floor;
    InvSane(k);
    var k1 := Step(k, op).0;
    AlarmStarted(k, op, i, d);
    StepInv(k, op);
    AlarmStaysRun(k1, ops, i);
    RunInv(k1, ops);
    SameCfg(k1, ops);
    var k2 := After(k1, ops);
    FiresInItsTick(k2, Alm(i));
    TickBounds(k.cfg.per, k.e.n, k2.e.n, d, k2.e.tmr[Alm(i)]);
  }

  // ----- Cyclic handlers ----------------------------------------------------

  /** The time from sta_cyc to the activation that follows `n` others. */
  function Delayed(a: CycAttr, n: nat): nat {
    a.cycphs + n * a.cyctim
  }

  /** After sta_cyc, made at real time `now` between two ticks, each activation of the cyclic
      handler comes in a tick later than the phase and the periods before it, and earlier than
      that and one millisecond and two tick periods, however many there were. */
  lemma CyclicBounds(k: K, i: nat, ops: seq<Op>, now: real)
    requires Inv(k) && Enabled(k, Task(StaCyc(i))) && i < |k.cfg.cyc|
    requires IsRun(Step(k, Task(StaCyc(i))).0, ops) && forall j :: 0 <= j < |ops| ==> !Restarts(ops[j], i)
    requires Enabled(After(Step(k, Task(StaCyc(i))).0, ops), Fire(Cyc(i)))
    requires (k.e.n * k.cfg.per.nume) as real <= now < ((k.e.n + 1) * k.cfg.per.nume) as real
    ensures var per := k.cfg.per;
            var n := After(Step(k, Task(StaCyc(i))).0, ops).e.n;
            var d := Delayed(k.cfg.cyc[i], Activations(ops, i));
            && (n * per.nume) as real > now + (d * per.deno) as real
            && (n * per.nume) as real < now + ((d + 1) * per.deno + 2 * per.nume) as real
  {
    hide Inv, Step, Enabled, Period.Ok, Period.Ceil, Period.Floor;
    InvSane(k);
    var k1 := Step(k, Task(StaCyc(i))).0;
    CyclicStarted(k, i);
    StepInv(k, Task(StaCyc(i)));
    NoDrift(k1, ops, i);
    RunInv(k1, ops);
    SameCfg(k1, ops);
    var k2 := After(k1, ops);
    FiresInItsTick(k2, Cyc(i));
    TickBounds(k.cfg.per, k.e.n, k2.e.n, Delayed(k.cfg.cyc[i], Activations(ops, i)), k2.e.tmr[Cyc(i)]);
  }
}
