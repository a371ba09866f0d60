/** The tokens of the serial driver are semaphores of the kernel: what its steps do to them
    is what the kernel's calls do to a semaphore with the maximum 1. */
module Token {
  import opened Basics
  import opened OrderedList
  import opened TimeEvent
  import opened KernelSpec
  import opened KernelInv
  import opened KernelCalls
  import opened Serial

  /** Semaphore `o` of the kernel is binary and stands at `s`. */
  ghost predicate Stands(k: K, o: nat, s: Sem) {
    && k.cfg.IsSem(o) && k.cfg.obj[o].max == 1
    && o < |k.q.cnt| && o < |k.q.wq| && k.q.cnt[o] == s.cnt && k.q.wq[o] == s.wait
  }

  /** sig_sem: the step of the token, and its first waiter is the task that is woken. */
  lemma KernelSignals(k: K, o: nat, s: Sem)
    requires Core(k, -1, {}) && Stands(k, o, s)
    ensures Sane(k)
    ensures var (k1, ret) := DoSigSem(k, o);
            && Stands(k1, o, Signal(s).0) && ret == Ret(Signal(s).1)
            && (s.wait != [] ==>
                  var u := s.wait[0];
                  && u < |k.t.tstat| == |k1.t.tstat| && u < |k1.t.winfo|
                  && WaitsOn(k, u, o) && !k1.t.tstat[u].Waiting? && k1.t.winfo[u] == Wercd(E_OK))
  {
    hide Core, EndWait;
    CoreShape(k);
    SemFacts(k, o);
    if k.q.wq[o] != [] {
      CoreLinks(k, -1, {});
      PopWakeOk(k, o, E_OK);
      PopIsEndWait(k, -1, o, E_OK);
      EndWaitFields(k, k.q.wq[o][0], E_OK);
    }
  }

  /** wai_sem of a task that may wait: the step of the token, with the place in the queue that
      its priority or its arrival calls for. */
  lemma KernelWaits(k: K, r: nat, o: nat, s: Sem) returns (at: nat)
    requires Core(k, -1, {}) && Stands(k, o, s) && r < |k.t.tstat| && k.t.tstat[r].Runnable?
    requires Dsp(k) && r < |k.t.flag| && !k.t.flag[r].waifbd
    ensures Sane(k) && at <= |s.wait|
    ensures var (k1, ret) := DoWaiSem(k, r, o, TMO_FEVR);
            && Stands(k1, o, Await(s, r, at)) && ret == (if s.cnt >= 1 then Ret(E_OK) else Blocks)
            && (s.cnt == 0 ==> WaitsOn(k1, r, o))
  {
    hide Core, Period.Ceil, Remove, InsertLast;
    CoreShape(k);
    SemFacts(k, o);
    if k.cfg.obj[o].tpri {
      at := InsertLastSplit(s.wait, k.t.pri, r);
    } else {
      at := |s.wait|;
      assert s.wait[..at] + [r] + s.wait[at..] == s.wait + [r];
    }
  }

  /** rel_wai of a task that waits for the semaphore: the step of the token. */
  lemma KernelReleases(k: K, t: nat, o: nat, s: Sem)
    requires Core(k, -1, {}) && Stands(k, o, s) && WaitsOn(k, t, o)
    ensures Shape(k) && Stands(DoRelWai(k, t).0, o, Release(s, t)) && DoRelWai(k, t).1 == Ret(E_OK)
  {
    hide Core, EndWait;
    CoreShape(k);
    EndWaitFields(k, t, E_RLWAI);
  }
}
