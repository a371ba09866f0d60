/** What calls undo: unlocking undoes locking, and a full round of rotations changes nothing. */
module Undo {
  import opened Basics
  import opened OrderedList
  import opened KernelSpec
  import opened KernelInv
  import opened KernelCalls
  import opened Runs

  /** The part of unl_mtx that changes the state. */
  function Release(k: K, r: nat, m: nat): K
    requires Shape(k) && WqOk(k) && CeilOk(k.cfg) && r < |k.t.tstat| && m < |k.q.wq|
  {
    GiveUpOk(k, r, m);
    HandOverOk(GiveUp(k, r, m), m);
    HandOver(GiveUp(k, r, m), m)
  }

  /** Locking mutex `m` raises the priority of task `r`. */
  predicate Raises(k: K, r: nat, m: nat) {
    k.cfg.Ceil(m).Some? && k.cfg.Ceil(m).value < Pri(k.t.pri, r)
  }

  lemma TakeBack(q: seq<nat>, pri: seq<nat>, t: nat)
    requires t !in q
    ensures Remove(InsertFirst(q, pri, t), t) == q
  {
    hide InsertFirst, Remove, Sorted;
    var i := InsertFirstSplit(q, pri, t);
    RemoveAt(q[..i], t, q[i..]);
    assert q[..i] + q[i..] == q;
  }

  /** A task goes back to its old place by joining ahead of its equals exactly if it was
      the first of them. */
  lemma BackInPlace(q: seq<nat>, pri: seq<nat>, t: nat)
    requires NoDup(q) && Sorted(q, pri) && t in q
    ensures InsertFirst(Remove(q, t), pri, t) == q <==> FirstOf(q, pri, Pri(pri, t)) == Some(t)
  {
    hide InsertFirst, FirstOf, Remove;
    var i := RemoveSplit(q, t);
    if j :| 0 <= j < i && Pri(pri, t) <= Pri(pri, q[j]) {
      TakesLead(q, pri, t, i, j);
      FirstNot(q, pri, t, j);
    } else {
      var a, b := q[..i], q[i + 1..];
      assert q == a + [t] + b;
      assert b != [] ==> b[0] == q[i + 1];
      InsertFirstAt(a, b, pri, t);
      FirstIs(a, t, b, pri);
    }
  }

  /** Behind an equal, it would overtake that equal. */
  lemma TakesLead(q: seq<nat>, pri: seq<nat>, t: nat, i: nat, j: nat)
    requires j < i < |q| && Sorted(q, pri) && t !in q[..i] && q[i] == t
    requires Pri(pri, t) <= Pri(pri, q[j])
    ensures InsertFirst(q[..i] + q[i + 1..], pri, t) != q && Pri(pri, q[j]) == Pri(pri, t)
  {
    hide InsertFirst, Sorted;
    assert Pri(pri, q[j]) <= Pri(pri, q[i]) by { OrderedPair(q, pri, j, i); }
    var r := q[..i] + q[i + 1..];
    var p := InsertFirstSplit(r, pri, t);
    assert r[j] == q[j];
    assert p <= j;
    assert (r[..p] + [t] + r[p..])[p] == t;
    assert q[p] == q[..i][p];
  }

  lemma OrderedPair(q: seq<nat>, pri: seq<nat>, i: nat, j: nat)
    requires Sorted(q, pri) && i < j < |q|
    ensures Pri(pri, q[i]) <= Pri(pri, q[j])
  {
  }

  lemma {:induction false} FirstIs(a: seq<nat>, t: nat, b: seq<nat>, pri: seq<nat>)
    requires forall x :: x in a ==> Pri(pri, x) != Pri(pri, t)
    ensures FirstOf(a + [t] + b, pri, Pri(pri, t)) == Some(t)
  {
    if a == [] {
      assert a + [t] + b == [t] + b;
    } else {
      assert (a + [t] + b)[1..] == a[1..] + [t] + b;
      FirstIs(a[1..], t, b, pri);
    }
  }

  lemma {:induction false} FirstNot(q: seq<nat>, pri: seq<nat>, t: nat, j: nat)
    requires j < |q| && Pri(pri, q[j]) == Pri(pri, t) && forall i :: 0 <= i <= j ==> q[i] != t
    ensures FirstOf(q, pri, Pri(pri, t)) != Some(t)
  {
    if Pri(pri, q[0]) != Pri(pri, t) {
      FirstNot(q[1..], pri, t, j - 1);
    }
  }

  /** Locking a free mutex and unlocking it again restores the whole state exactly if the
      lock does not raise the caller's priority, or the caller is the first ready task of
      its priority. */
  lemma UnlockUndoesLock(k: K, r: nat, m: nat)
    requires Core(k, -1, {}) && r < |k.t.tstat| && k.t.tstat[r].Runnable? && k.cfg.IsMtx(m)
    requires m < |k.q.loc| && k.q.loc[m] == None
    requires k.cfg.Ceil(m).Some? ==> k.cfg.Ceil(m).value <= Pri(k.t.bpri, r)
    ensures Shape(k) && m < |k.q.wq|
    ensures var k1 := Acquire(k, r, m);
            && Sane(k1) && |k1.q.wq| == |k.q.wq| && |k1.t.tstat| == |k.t.tstat|
            && (Release(k1, r, m) == k <==> !Raises(k, r, m) || FirstOf(k.q.rq, k.t.pri, Pri(k.t.pri, r)) == Some(r))
  {
    hide Core, Sane, InsertFirst, Remove, FirstOf, CalcPri, Sorted, NoDup;
    CoreShape(k);
    LockFacts(k, r, m);
    AcquireCore(k, r, m);
    var k1 := Acquire(k, r, m);
    CoreShape(k1);
    MutexFacts(k1, m);
    BackInPlace(k.q.rq, k.t.pri, r);
    RemoveNoDup(k.q.rq, r);
    TakeBack(Remove(k.q.rq, r), k.t.pri[r := if Raises(k, r, m) then k.cfg.Ceil(m).value else k.t.pri[r]], r);
    assert Remove([m] + k.t.held[r], m) == k.t.held[r] by { RemoveFirst(m, k.t.held[r]); }
    Restored(k, r, m);
  }

  lemma RemoveFirst(m: nat, held: seq<nat>)
    ensures Remove([m] + held, m) == held
  {
  }

  lemma LockFacts(k: K, r: nat, m: nat)
    requires Core(k, -1, {}) && r < |k.t.tstat| && k.t.tstat[r].Runnable? && k.cfg.IsMtx(m)
    requires m < |k.q.loc| && k.q.loc[m] == None
    ensures m < |k.q.wq| && k.q.wq[m] == []
    ensures |k.t.tstat| == |k.t.held| == |k.t.pri| == |k.t.bpri|
    ensures NoDup(k.q.rq) && Sorted(k.q.rq, k.t.pri) && r in k.q.rq
    ensures k.t.pri[r] == CalcPri(k.cfg, k.t.held[r], k.t.bpri[r])
  {
    hide TmrOk, SemOk, IdleOk, ClockOk, CfgOk;
    assert PriAt(k.cfg, k.t, r);
  }

  /** The state after lock and unlock differs at most in the ready list. */
  lemma Restored(k: K, r: nat, m: nat)
    requires Shape(k) && r < |k.t.tstat| && k.t.tstat[r].Runnable? && m < |k.q.wq| && k.q.wq[m] == []
    requires k.q.loc[m] == None && CeilOk(k.cfg)
    requires k.t.pri[r] == CalcPri(k.cfg, k.t.held[r], k.t.bpri[r])
    requires Remove([m] + k.t.held[r], m) == k.t.held[r]
    requires var q := Remove(k.q.rq, r);
             Raises(k, r, m) ==> Remove(InsertFirst(q, k.t.pri[r := k.cfg.Ceil(m).value], r), r) == q
    requires Shape(Acquire(k, r, m)) && WqOk(Acquire(k, r, m)) && |Acquire(k, r, m).q.wq| == |k.q.wq|
    ensures Release(Acquire(k, r, m), r, m)
            == k.(q := k.q.(rq := if Raises(k, r, m) then InsertFirst(Remove(k.q.rq, r), k.t.pri, r) else k.q.rq))
  {
    hide InsertFirst, Remove, CalcPri, WqOk;
    var k1 := Acquire(k, r, m);
    assert k1.t.held[r := k.t.held[r]] == k.t.held;
    assert k1.q.loc[m := None] == k.q.loc;
    assert k1.t.pri[r := k.t.pri[r]] == k.t.pri;
  }

  /** In a task that can be preempted, loc_mtx that succeeds is undone by unl_mtx. */
  lemma LockUnlock(k: K, m: nat, tmo: Tmo)
    requires Inv(k) && Enabled(k, Task(LocMtx(m, tmo))) && Step(k, Task(LocMtx(m, tmo))).1 == Ret(E_OK)
    ensures var k1 := Step(k, Task(LocMtx(m, tmo))).0;
            Enabled(k1, Task(UnlMtx(m))) && Step(k1, Task(UnlMtx(m))) == (k, Ret(E_OK))
  {
    hide Core, Inv, Acquire, GiveUp, HandOver, Block, Sane, FirstOf;
    InvCore(k);
    var r := k.c.run.value;
    CoreShape(k);
    HighestRuns(k, r);
    UnlockUndoesLock(k, r, m);
    LockedState(k, r, m);
    var k1 := Step(k, Task(LocMtx(m, tmo))).0;
    StepInv(k, Task(LocMtx(m, tmo)));
    EnabledIff(k1, Task(UnlMtx(m)));
  }

  /** The running task, if it can be preempted, is the first of its priority. */
  lemma HighestRuns(k: K, r: nat)
    requires Inv(k) && k.c.run == Some(r) && !k.c.inint
    ensures Dsp(k) ==> Sched(k) == Some(r) && FirstOf(k.q.rq, k.t.pri, Pri(k.t.pri, r)) == Some(r)
    ensures r < |k.t.tstat| && k.t.tstat[r].Runnable?
  {
    hide LinksOk, OrderOk, OwnOk, PriOk, TmrOk, SemOk, IdleOk, ClockOk, CfgOk;
  }

  /** Locking changes nothing about who runs. */
  lemma LockedState(k: K, r: nat, m: nat)
    requires Shape(k) && r < |k.t.tstat| && m < |k.q.loc| && m < |k.q.wq| && k.t.tstat[r].Runnable? && Core(k, -1, {})
    requires k.c.run == Some(r) && (Dsp(k) ==> Sched(k) == Some(r))
    ensures var k1 := Acquire(k, r, m);
            && k1.c == k.c && k1.cfg == k.cfg && |k1.q.loc| == |k.q.loc| && k1.q.loc[m] == Some(r)
            && Dispatch(k1) == k1
    ensures Dispatch(k) == k
  {
    hide Core, Remove, InsertFirst, Shape;
    var k1 := Acquire(k, r, m);
    if Dsp(k) {
      AcquireKeepsHighest(k, r, m);
    }
  }

  // ----- Rotation -----------------------------------------------------------

  function RotateTimes(k: K, p: nat, n: nat): K
    decreases n
  {
    if n == 0 then k else RotateTimes(Rotate(k, p), p, n - 1)
  }

  // A ready list in three parts: above, at and below a priority.
  ghost predicate Parts(q: seq<nat>, pri: seq<nat>, p: nat, a: seq<nat>, s: seq<nat>, b: seq<nat>) {
    && q == a + s + b
    && (forall x :: x in a ==> Pri(pri, x) < p)
    && (forall x :: x in s ==> Pri(pri, x) == p)
    && (forall x :: x in b ==> p < Pri(pri, x))
  }

  lemma {:induction false} LevelParts(q: seq<nat>, pri: seq<nat>, p: nat) returns (a: seq<nat>, s: seq<nat>, b: seq<nat>)
    requires Sorted(q, pri)
    ensures Parts(q, pri, p, a, s, b) && Level(q, pri, p) == s
  {
    if q == [] {
      a, s, b := [], [], [];
    } else {
      a, s, b := LevelParts(q[1..], pri, p);
      assert q == [q[0]] + q[1..];
      HeadFirst(q, pri);
      if Pri(pri, q[0]) < p {
        a := [q[0]] + a;
      } else {
        Nobody(a, pri, p, q[1..]);
        if Pri(pri, q[0]) == p {
          s := [q[0]] + s;
        } else {
          Nobody(s, pri, Pri(pri, q[0]), q[1..]);
          b := [q[0]] + b;
        }
      }
    }
  }

  lemma Nobody(a: seq<nat>, pri: seq<nat>, p: nat, q: seq<nat>)
    requires forall x :: x in q ==> p <= Pri(pri, x)
    requires forall x :: x in a ==> x in q && Pri(pri, x) < p
    ensures a == []
  {
    HasHead(a);
  }

  lemma HasHead(a: seq<nat>)
    ensures a != [] ==> exists x :: x in a
  {
    assert a != [] ==> a[0] in a;
  }

  lemma HeadFirst(q: seq<nat>, pri: seq<nat>)
    requires q != [] && Sorted(q, pri)
    ensures forall x :: x in q[1..] ==> Pri(pri, q[0]) <= Pri(pri, x)
    ensures Sorted(q[1..], pri)
  {
  }

  lemma RotateParts(k: K, p: nat, a: seq<nat>, s: seq<nat>, b: seq<nat>)
    requires Parts(k.q.rq, k.t.pri, p, a, s, b) && s != []
    ensures Rotate(k, p) == k.(q := k.q.(rq := a + s[1..] + [s[0]] + b))
    ensures FirstOf(k.q.rq, k.t.pri, p) == Some(s[0])
  {
    hide Remove, InsertLast, FirstOf;
    var t, pri := s[0], k.t.pri;
    assert s[0] in s;
    assert s == [t] + s[1..];
    assert k.q.rq == a + [t] + (s[1..] + b);
    FirstIs(a, t, s[1..] + b, pri);
    RemoveAt(a, t, s[1..] + b);
    assert a + (s[1..] + b) == (a + s[1..]) + b;
    assert b != [] ==> b[0] in b;
    InsertLastAt(a + s[1..], b, pri, t);
  }

  lemma {:induction false} RotatedParts(k: K, p: nat, a: seq<nat>, s: seq<nat>, b: seq<nat>, n: nat)
    requires Parts(k.q.rq, k.t.pri, p, a, s, b) && n <= |s|
    ensures RotateTimes(k, p, n) == k.(q := k.q.(rq := a + s[n..] + s[..n] + b))
    decreases n
  {
    hide Rotate;
    if n == 0 {
      assert s[0..] == s && s[..0] == [];
      assert a + s + [] + b == k.q.rq;
    } else {
      RotateParts(k, p, a, s, b);
      var s2 := s[1..] + [s[0]];
      assert a + s2 + b == a + s[1..] + [s[0]] + b;
      RotatedParts(Rotate(k, p), p, a, s2, b, n - 1);
      assert s2[n - 1..] == s[n..] + [s[0]];
      assert [s[0]] + s2[..n - 1] == s[..n];
      assert a + s2[n - 1..] + s2[..n - 1] + b == a + s[n..] + ([s[0]] + s2[..n - 1]) + b;
    }
  }

  /** Rotation gives the tasks of a priority their turns in order, and as many rotations
      as there are tasks restore the whole state. */
  lemma RoundRobin(k: K, p: nat, n: nat)
    requires Inv(k)
    ensures var level := Level(k.q.rq, k.t.pri, p);
            && RotateTimes(k, p, |level|) == k
            && (n < |level| ==> FirstOf(RotateTimes(k, p, n).q.rq, k.t.pri, p) == Some(level[n]))
  {
    hide Inv, RotateTimes, FirstOf, Level;
    ReadySorted(k);
    var a, s, b := LevelParts(k.q.rq, k.t.pri, p);
    RotatedParts(k, p, a, s, b, |s|);
    assert a + s[|s|..] + s[..|s|] + b == k.q.rq;
    if n < |s| {
      RotatedParts(k, p, a, s, b, n);
      var k1 := RotateTimes(k, p, n);
      assert a + s[n..] + s[..n] + b == a + (s[n..] + s[..n]) + b;
      RotateParts(k1, p, a, s[n..] + s[..n], b);
    }
  }

  lemma ReadySorted(k: K)
    requires Inv(k)
    ensures Sorted(k.q.rq, k.t.pri)
  {
    hide LinksOk, OwnOk, PriOk, TmrOk, SemOk, IdleOk, ClockOk, CfgOk, RunOk;
  }
}
