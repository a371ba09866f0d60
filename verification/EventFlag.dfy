/** kernel/eventflag.c: event flags, the tasks that wait for bit patterns, and the loop
    that wakes them. */
module EventFlag {
  import opened OrderedList
  import opened WaitQueue
  import opened KernelSpec

  type Flgptn = bv32
  type Mode = bv32

  const TWF_ORW: Mode := 1
  const TWF_ANDW: Mode := 2

  // What a task waits for: a pattern, and whether all of its bits or any of them will do.
  datatype Cond = Cond(waiptn: Flgptn, wfmode: Mode)

  // ----- Patterns by bits ---------------------------------------------------

  /** Bit `i` of a pattern is set. */
  predicate Bit(p: Flgptn, i: bv32)
    requires i < 32
  {
    (p >> i) & 1 == 1
  }

  /** Every bit that is set in `q` is set in `p`. */
  ghost predicate EveryBit(q: Flgptn, p: Flgptn) {
    forall i: bv32 :: i < 32 && Bit(q, i) ==> Bit(p, i)
  }

  ghost predicate SomeBit(q: Flgptn, p: Flgptn) {
    exists i: bv32 :: i < 32 && Bit(q, i) && Bit(p, i)
  }

  /** With TWF_ANDW every bit of the pattern that is waited for has to be set, with TWF_ORW
      one of them. */
  ghost predicate Meets(flgptn: Flgptn, c: Cond) {
    if c.wfmode == TWF_ANDW then EveryBit(c.waiptn, flgptn) else SomeBit(c.waiptn, flgptn)
  }

  function SetBits(p: Flgptn, q: Flgptn): Flgptn {
    p | q
  }

  function KeepBits(p: Flgptn, q: Flgptn): Flgptn {
    p & q
  }

  function DropBits(p: Flgptn, q: Flgptn): Flgptn {
    KeepBits(p, !q)
  }

  /** The bits of a pattern after set_flg and after clr_flg, and without those of another. */
  lemma BitByBit(p: Flgptn, q: Flgptn)
    ensures forall i: bv32 :: i < 32 ==> (Bit(SetBits(p, q), i) <==> Bit(p, i) || Bit(q, i))
    ensures forall i: bv32 :: i < 32 ==> (Bit(KeepBits(p, q), i) <==> Bit(p, i) && Bit(q, i))
    ensures forall i: bv32 :: i < 32 ==> (Bit(DropBits(p, q), i) <==> Bit(p, i) && !Bit(q, i))
  {
    hide Bit, SetBits, KeepBits, DropBits;
    forall i: bv32 | i < 32
      ensures Bit(SetBits(p, q), i) <==> Bit(p, i) || Bit(q, i)
      ensures Bit(KeepBits(p, q), i) <==> Bit(p, i) && Bit(q, i)
      ensures Bit(DropBits(p, q), i) <==> Bit(p, i) && !Bit(q, i)
    {
      BitOfOr(p, q, i);
      BitOfAnd(p, q, i);
      BitOfRest(p, q, i);
    }
  }

  lemma BitOfOr(p: Flgptn, q: Flgptn, i: bv32)
    requires i < 32
    ensures Bit(SetBits(p, q), i) <==> Bit(p, i) || Bit(q, i)
  {
  }

  lemma BitOfAnd(p: Flgptn, q: Flgptn, i: bv32)
    requires i < 32
    ensures Bit(KeepBits(p, q), i) <==> Bit(p, i) && Bit(q, i)
  {
  }

  lemma BitOfRest(p: Flgptn, q: Flgptn, i: bv32)
    requires i < 32
    ensures Bit(DropBits(p, q), i) <==> Bit(p, i) && !Bit(q, i)
  {
    hide Bit, KeepBits;
    BitOfAnd(p, !q, i);
    BitOfNot(q, i);
  }

  lemma BitOfNot(p: Flgptn, i: bv32)
    requires i < 32
    ensures Bit(!p, i) <==> !Bit(p, i)
  {
  }

  /** A pattern without a set bit is zero. */
  lemma {:induction false} NoBit(p: Flgptn, n: bv32)
    requires n <= 32 && forall i: bv32 :: n <= i < 32 ==> !Bit(p, i)
    ensures p >> n == 0
    decreases 32 - n as int
  {
    hide Bit;
    if n < 32 {
      NoBit(p, n + 1);
      HighBits(p, n);
    } else {
      NoneLeft(p);
    }
  }

  lemma HighBits(p: Flgptn, n: bv32)
    requires n < 32 && p >> (n + 1) == 0 && !Bit(p, n)
    ensures p >> n == 0
  {
  }

  lemma NoneLeft(p: Flgptn)
    ensures p >> 32 == 0
  {
  }

  /** A pattern is zero exactly if none of its bits is set. */
  lemma ZeroExactly(p: Flgptn)
    ensures p == 0 <==> forall i: bv32 :: i < 32 ==> !Bit(p, i)
  {
    hide Bit;
    if forall i: bv32 :: i < 32 ==> !Bit(p, i) {
      NoBit(p, 0);
    } else {
      var i: bv32 :| i < 32 && Bit(p, i);
      ZeroBit(i);
    }
  }

  lemma ZeroBit(i: bv32)
    requires i < 32
    ensures !Bit(0, i)
  {
  }

  // ----- The condition ------------------------------------------------------

  predicate Overlap(p: Flgptn, q: Flgptn) {
    p & q != 0
  }

  predicate Covers(p: Flgptn, q: Flgptn) {
    p & q == q
  }

  /** The condition of check_flg_cond. */
  predicate Satisfied(flgptn: Flgptn, c: Cond) {
    if OrMode(c.wfmode) then Overlap(flgptn, c.waiptn) else Covers(flgptn, c.waiptn)
  }

  predicate OrMode(wfmode: Mode) {
    wfmode & TWF_ORW != 0
  }

  predicate ModeOk(c: Cond) {
    c.wfmode == TWF_ORW || c.wfmode == TWF_ANDW
  }

  lemma OverlapByBits(p: Flgptn, q: Flgptn)
    ensures Overlap(p, q) <==> SomeBit(q, p)
  {
    hide Bit, Overlap, DropBits, KeepBits, SetBits;
    BitByBit(p, q);
    ZeroExactly(KeepBits(p, q));
    OverlapKeeps(p, q);
  }

  lemma OverlapKeeps(p: Flgptn, q: Flgptn)
    ensures Overlap(p, q) <==> KeepBits(p, q) != 0
  {
  }

  lemma CoversDrops(p: Flgptn, q: Flgptn)
    ensures Covers(p, q) <==> DropBits(q, p) == 0
  {
    if Covers(p, q) {
      NothingLeft(p, q);
    } else if q & !p == 0 {
      NothingMissing(p, q);
    }
  }

  lemma NothingLeft(p: Flgptn, q: Flgptn)
    requires p & q == q
    ensures q & !p == 0
  {
  }

  lemma NothingMissing(p: Flgptn, q: Flgptn)
    requires q & !p == 0
    ensures p & q == q
  {
  }

  lemma CoversByBits(p: Flgptn, q: Flgptn)
    ensures Covers(p, q) <==> EveryBit(q, p)
  {
    hide Bit, Covers, DropBits, KeepBits, SetBits;
    BitByBit(q, p);
    ZeroExactly(DropBits(q, p));
    CoversDrops(p, q);
  }

  lemma ModeBit(wfmode: Mode)
    requires wfmode == TWF_ORW || wfmode == TWF_ANDW
    ensures OrMode(wfmode) <==> wfmode == TWF_ORW
  {
  }

  /** check_flg_cond decides the condition, as long as the mode is one of the two. */
  lemma CondByBits(p: Flgptn, c: Cond)
    requires ModeOk(c)
    ensures Satisfied(p, c) <==> Meets(p, c)
  {
    hide SomeBit, EveryBit, Overlap, Covers, OrMode;
    ModeBit(c.wfmode);
    OverlapByBits(p, c.waiptn);
    CoversByBits(p, c.waiptn);
  }

  /** Clearing bits meets nobody's condition. */
  lemma ClearKeeps(p: Flgptn, q: Flgptn, c: Cond)
    requires !Meets(p, c)
    ensures !Meets(KeepBits(p, q), c)
  {
    hide Bit, KeepBits, SetBits, DropBits;
    BitByBit(p, q);
  }

  lemma ZeroMeetsNobody(c: Cond)
    requires c.waiptn != 0
    ensures !Meets(0, c)
  {
    hide Bit;
    ZeroExactly(0);
    ZeroExactly(c.waiptn);
  }

  /** The waiters whose conditions pattern `p` meets, in their order, and the others. */
  ghost function Met(q: seq<Waiter<Cond>>, p: Flgptn): seq<Waiter<Cond>> {
    if q == [] then [] else (if Meets(p, q[0].info) then [q[0]] else []) + Met(q[1..], p)
  }

  ghost function Unmet(q: seq<Waiter<Cond>>, p: Flgptn): (r: seq<Waiter<Cond>>)
    ensures forall w :: w in r <==> w in q && !Meets(p, w.info)
  {
    if q == [] then [] else (if Meets(p, q[0].info) then [] else [q[0]]) + Unmet(q[1..], p)
  }

  /** The satisfied waiters are exactly those whose condition holds. */
  lemma {:induction false} MetExactly(q: seq<Waiter<Cond>>, p: Flgptn)
    ensures forall w :: w in Met(q, p) <==> w in q && Meets(p, w.info)
    ensures |Met(q, p)| + |Unmet(q, p)| == |q|
  {
    hide Meets;
    if q != [] {
      MetExactly(q[1..], p);
    }
  }

  // A task that was woken, and the pattern it was given.
  datatype Wakeup = Wakeup(tsk: nat, flgptn: Flgptn)

  function Wakeups(q: seq<Waiter<Cond>>, p: Flgptn): (r: seq<Wakeup>)
    ensures |r| == |q| && forall i :: 0 <= i < |q| ==> r[i] == Wakeup(q[i].tsk, p)
  {
    seq(|q|, i requires 0 <= i < |q| => Wakeup(q[i].tsk, p))
  }

  class EventFlg {
    const clr: bool         // TA_CLR
    const wmul: bool        // TA_WMUL
    const tpri: bool
    const iflgptn: Flgptn
    var flgptn: Flgptn
    var wait: seq<Waiter<Cond>>
    var priority: seq<nat>  // the current priorities of the tasks

    /** In particular, nobody whose condition is met is left waiting. */
    ghost predicate Valid()
      reads this
    {
      && QueueOk(TskIds(wait), tpri, priority)
      && (!wmul ==> |wait| <= 1)
      && (forall w :: w in wait ==> ModeOk(w.info) && w.info.waiptn != 0 && !Meets(flgptn, w.info))
    }

    constructor (clr: bool, wmul: bool, tpri: bool, iflgptn: Flgptn, priority: seq<nat>)
      ensures Valid() && flgptn == iflgptn && wait == []
      ensures this.clr == clr && this.wmul == wmul && this.tpri == tpri && this.iflgptn == iflgptn
      ensures this.priority == priority
    {
      this.clr, this.wmul, this.tpri, this.iflgptn, this.priority := clr, wmul, tpri, iflgptn, priority;
      flgptn, wait := iflgptn, [];
    }

    /** check_flg_cond. */
    method CheckFlgCond(w: Waiter<Cond>) returns (ok: bool, p: Flgptn)
      modifies `flgptn
      ensures ok == Satisfied(old(flgptn), w.info)
      ensures ModeOk(w.info) ==> (ok <==> Meets(old(flgptn), w.info))
      ensures ok ==> p == old(flgptn) && flgptn == if clr then 0 else old(flgptn)
      ensures !ok ==> flgptn == old(flgptn)
    {
      hide Meets, Satisfied;
      if ModeOk(w.info) {
        CondByBits(flgptn, w.info);
      }
      p := 0;
      if Satisfied(flgptn, w.info) {
        p := flgptn;
        if clr {
          flgptn := 0;
        }
        return true, p;
      }
      return false, p;
    }

    /** set_flg and iset_flg: every satisfied waiter is woken and given the new pattern; with
        TA_CLR only the first is, and then the pattern is cleared. */
    method SetFlg(setptn: Flgptn) returns (woken: seq<Wakeup>)
      requires Valid()
      modifies `flgptn, `wait
      ensures Valid()
      ensures var p := SetBits(old(flgptn), setptn);
              var met := Met(old(wait), p);
              if clr && met != [] then
                && woken == [Wakeup(met[0].tsk, p)] && flgptn == 0
                && wait == Remove(old(wait), met[0])
              else
                && |woken| == |met| && (forall i :: 0 <= i < |met| ==> woken[i] == Wakeup(met[i].tsk, p))
                && flgptn == p && wait == Unmet(old(wait), p)
    {
      hide Meets, QueueOk, Remove, Met, Unmet, Wakeups, TskIds, SetBits;
      flgptn := SetBits(flgptn, setptn);
      ghost var p, q, done := flgptn, wait, [];
      NoneYet(p);
      woken := [];
      var i := 0;
      while i < |wait|
        invariant 0 <= i <= |wait| && flgptn == p
        invariant q == done + wait[i..] && wait[..i] == Unmet(done, p)
        invariant woken == Wakeups(Met(done, p), p)
        invariant clr ==> Met(done, p) == []
        decreases |wait| - i
      {
        var w := wait[i];
        ghost var rest := wait[i + 1..];
        AtIndex(wait, i, done);
        NextWaiter(done, w, p);
        var ok, ptn := CheckFlgCond(w);
        if ok {
          wait := wait[..i] + wait[i + 1..];
          woken := woken + [Wakeup(w.tsk, ptn)];
          if clr {
            FirstMet(done, w, rest, p);
            OthersUnmet(q, w, tpri, priority);
            return;
          }
        } else {
          i := i + 1;
        }
        done := done + [w];
      }
      assert done == q && wait[..i] == wait;
      UnmetOk(q, p, tpri, priority);
      UnmetShorter(q, p);
    }

    /** clr_flg. */
    method ClrFlg(clrptn: Flgptn)
      requires Valid()
      modifies `flgptn
      ensures Valid() && flgptn == KeepBits(old(flgptn), clrptn)
    {
      hide Meets, KeepBits, QueueOk;
      forall w | w in wait
        ensures !Meets(KeepBits(flgptn, clrptn), w.info)
      {
        ClearKeeps(flgptn, clrptn, w.info);
      }
      flgptn := KeepBits(flgptn, clrptn);
    }

    /** wai_flg (with TMO_FEVR) and twai_flg. */
    method WaiFlg(t: nat, waiptn: Flgptn, wfmode: Mode, tmo: Tmo, dspflg: bool, waifbd: bool) returns (ret: Ret, p: Flgptn)
      requires Valid() && t !in TskIds(wait)
      modifies `flgptn, `wait
      ensures Valid()
      ensures var w := Waiter(t, Cond(waiptn, wfmode));
              if !dspflg then ret == Ret(E_CTX)
              else if waiptn == 0 || wfmode !in {TWF_ORW, TWF_ANDW} || tmo < TMO_FEVR then ret == Ret(E_PAR)
              else if !wmul && old(wait) != [] then ret == Ret(E_ILUSE)
              else if Meets(old(flgptn), w.info) then
                ret == Ret(E_OK) && p == old(flgptn) && flgptn == if clr then 0 else old(flgptn)
              else if tmo == TMO_POL then ret == Ret(E_TMOUT)
              else if waifbd then ret == Ret(E_RLWAI)
              else
                && ret == Blocks && multiset(wait) == multiset(old(wait)) + multiset{w}
                && TskIds(wait) == Joined(TskIds(old(wait)), tpri, priority, t)
      ensures ret != Ret(E_OK) ==> flgptn == old(flgptn)
      ensures ret != Blocks ==> wait == old(wait)
    {
      hide Meets, QueueOk, Joined, TskIds;
      p := 0;
      if !dspflg {
        return Ret(E_CTX), p;
      }
      if waiptn == 0 || (wfmode != TWF_ORW && wfmode != TWF_ANDW) || tmo < TMO_FEVR {
        return Ret(E_PAR), p;
      }
      var w := Waiter(t, Cond(waiptn, wfmode));
      ret, p := TryFlg(w);
      if ret != Ret(E_TMOUT) || tmo == TMO_POL {
        return ret, p;
      }
      if waifbd {
        return Ret(E_RLWAI), p;
      }
      ghost var q := wait;
      wait := Join(wait, tpri, priority, w);
      SameMembers(q, w, wait);
      return Blocks, p;
    }

    /** The part of wai_flg, pol_flg and twai_flg before a wait. */
    method TryFlg(w: Waiter<Cond>) returns (ret: Ret, p: Flgptn)
      requires Valid() && ModeOk(w.info)
      modifies `flgptn
      ensures Valid()
      ensures if !wmul && wait != [] then ret == Ret(E_ILUSE)
              else if Meets(old(flgptn), w.info) then
                ret == Ret(E_OK) && p == old(flgptn) && flgptn == if clr then 0 else old(flgptn)
              else ret == Ret(E_TMOUT)
      ensures ret != Ret(E_OK) ==> flgptn == old(flgptn)
    {
      hide Meets, QueueOk, TskIds;
      p := 0;
      if !wmul && wait != [] {
        return Ret(E_ILUSE), p;
      }
      var ok;
      ok, p := CheckFlgCond(w);
      if ok {
        StillUnmetZero(wait);
        return Ret(E_OK), p;
      }
      return Ret(E_TMOUT), p;
    }

    /** pol_flg, which never waits. */
    method PolFlg(t: nat, waiptn: Flgptn, wfmode: Mode) returns (ret: Ret, p: Flgptn)
      requires Valid()
      modifies `flgptn
      ensures Valid()
      ensures if waiptn == 0 || wfmode !in {TWF_ORW, TWF_ANDW} then ret == Ret(E_PAR)
              else if !wmul && wait != [] then ret == Ret(E_ILUSE)
              else if Meets(old(flgptn), Cond(waiptn, wfmode)) then
                ret == Ret(E_OK) && p == old(flgptn) && flgptn == if clr then 0 else old(flgptn)
              else ret == Ret(E_TMOUT)
      ensures ret != Ret(E_OK) ==> flgptn == old(flgptn)
    {
      hide Meets, QueueOk, TskIds;
      if waiptn == 0 || (wfmode != TWF_ORW && wfmode != TWF_ANDW) {
        return Ret(E_PAR), 0;
      }
      ret, p := TryFlg(Waiter(t, Cond(waiptn, wfmode)));
    }

    /** wobj_change_priority: the priority of task `t` has become `p`. */
    method ChangePriority(t: nat, p: nat)
      requires Valid() && t < |priority|
      modifies `wait, `priority
      ensures Valid() && priority == old(priority)[t := p]
      ensures TskIds(wait) == Moved(TskIds(old(wait)), tpri, priority, t) && multiset(wait) == multiset(old(wait))
    {
      hide Meets, QueueOk, Moved, TskIds;
      ghost var q := wait;
      wait := Move(wait, tpri, priority, t, p);
      priority := priority[t := p];
      SameSize(q, wait);
      forall w | w in wait
        ensures ModeOk(w.info) && w.info.waiptn != 0 && !Meets(flgptn, w.info)
      {
        assert w in multiset(wait) && w in multiset(q);
      }
    }

    /** A waiting task gives up: timeout, rel_wai or ter_tsk. */
    method GiveUpWaiting(i: nat)
      requires Valid() && i < |wait|
      modifies `wait
      ensures Valid() && wait == old(wait)[..i] + old(wait)[i + 1..]
    {
      hide Meets, QueueOk;
      LeavesOk(wait, i, tpri, priority);
      wait := wait[..i] + wait[i + 1..];
    }

    /** ini_flg: everybody who waits is woken with E_DLT. */
    method InitFlg() returns (woken: seq<nat>)
      modifies `flgptn, `wait
      ensures Valid() && flgptn == iflgptn && wait == [] && woken == TskIds(old(wait))
    {
      woken := TskIds(wait);
      wait := [];
      flgptn := iflgptn;
    }
  }

  // ----- Facts about the wait queue -----------------------------------------

  lemma NoneYet(p: Flgptn)
    ensures Met([], p) == [] && Unmet([], p) == [] && Wakeups([], p) == []
  {
  }

  /** What is before and behind the waiter at index `i`, if it stays and if it goes. */
  lemma AtIndex(q: seq<Waiter<Cond>>, i: nat, done: seq<Waiter<Cond>>)
    requires i < |q|
    ensures var rest := q[i + 1..];
            && done + q[i..] == done + [q[i]] + rest && q[..i + 1] == q[..i] + [q[i]]
            && (q[..i] + rest)[..i] == q[..i] && (q[..i] + rest)[i..] == rest
  {
  }

  lemma NextWaiter(done: seq<Waiter<Cond>>, w: Waiter<Cond>, p: Flgptn)
    ensures Met(done + [w], p) == if Meets(p, w.info) then Met(done, p) + [w] else Met(done, p)
    ensures Unmet(done + [w], p) == if Meets(p, w.info) then Unmet(done, p) else Unmet(done, p) + [w]
    ensures Wakeups(Met(done, p) + [w], p) == Wakeups(Met(done, p), p) + [Wakeup(w.tsk, p)]
  {
    hide Meets, Met, Unmet;
    MetSnoc(done, w, p);
    UnmetSnoc(done, w, p);
  }

  lemma {:induction false} MetSnoc(done: seq<Waiter<Cond>>, w: Waiter<Cond>, p: Flgptn)
    ensures Met(done + [w], p) == Met(done, p) + (if Meets(p, w.info) then [w] else [])
  {
    hide Meets, Met;
    MetStep(done + [w], p);
    if done == [] {
      assert (done + [w])[1..] == [];
      MetStep([], p);
    } else {
      assert (done + [w])[1..] == done[1..] + [w];
      MetStep(done, p);
      MetSnoc(done[1..], w, p);
    }
  }

  lemma MetStep(q: seq<Waiter<Cond>>, p: Flgptn)
    ensures Met(q, p) == if q == [] then [] else (if Meets(p, q[0].info) then [q[0]] else []) + Met(q[1..], p)
  {
    hide Meets;
  }

  lemma {:induction false} UnmetSnoc(done: seq<Waiter<Cond>>, w: Waiter<Cond>, p: Flgptn)
    ensures Unmet(done + [w], p) == Unmet(done, p) + (if Meets(p, w.info) then [] else [w])
  {
    hide Meets, Unmet;
    UnmetStep(done + [w], p);
    if done == [] {
      assert (done + [w])[1..] == [];
      UnmetStep([], p);
    } else {
      assert (done + [w])[1..] == done[1..] + [w];
      UnmetStep(done, p);
      UnmetSnoc(done[1..], w, p);
    }
  }

  lemma UnmetStep(q: seq<Waiter<Cond>>, p: Flgptn)
    ensures Unmet(q, p) == if q == [] then [] else (if Meets(p, q[0].info) then [] else [q[0]]) + Unmet(q[1..], p)
  {
    hide Meets;
  }

  /** The first satisfied waiter, behind waiters that are not. */
  lemma FirstMet(done: seq<Waiter<Cond>>, w: Waiter<Cond>, rest: seq<Waiter<Cond>>, p: Flgptn)
    requires Met(done, p) == [] && Meets(p, w.info)
    ensures var q := done + [w] + rest;
            && Met(q, p) != [] && Met(q, p)[0] == w
            && Unmet(done, p) == done && Remove(q, w) == done + rest
  {
    hide Meets, Met, Unmet;
    FirstMetHead(done, w, rest, p);
    NobodyMet(done, p);
    assert w !in done;
    RemoveAt(done, w, rest);
  }

  lemma {:induction false} FirstMetHead(done: seq<Waiter<Cond>>, w: Waiter<Cond>, rest: seq<Waiter<Cond>>, p: Flgptn)
    requires Met(done, p) == [] && Meets(p, w.info)
    ensures var q := done + [w] + rest; Met(q, p) != [] && Met(q, p)[0] == w
  {
    hide Meets;
    var q := done + [w] + rest;
    if done == [] {
      assert q[0] == w;
    } else {
      assert q[1..] == done[1..] + [w] + rest;
      FirstMetHead(done[1..], w, rest, p);
    }
  }

  lemma {:induction false} NobodyMet(done: seq<Waiter<Cond>>, p: Flgptn)
    requires Met(done, p) == []
    ensures Unmet(done, p) == done && forall w :: w in done ==> !Meets(p, w.info)
  {
    hide Meets;
    if done != [] {
      NobodyMet(done[1..], p);
      assert done == [done[0]] + done[1..];
    }
  }

  /** Once the pattern is cleared, nobody who is left is satisfied. */
  lemma OthersUnmet(q: seq<Waiter<Cond>>, w: Waiter<Cond>, tpri: bool, pri: seq<nat>)
    requires QueueOk(TskIds(q), tpri, pri) && forall x :: x in q ==> x.info.waiptn != 0
    requires w in q
    ensures var r := Remove(q, w);
            && QueueOk(TskIds(r), tpri, pri) && |r| == |q| - 1
            && forall x :: x in r ==> x.info.waiptn != 0 && !Meets(0, x.info)
  {
    hide Meets, QueueOk;
    var i := RemoveSplit(q, w);
    LeavesOk(q, i, tpri, pri);
    StillUnmetZero(Remove(q, w));
  }

  lemma StillUnmetZero(q: seq<Waiter<Cond>>)
    requires forall w :: w in q ==> w.info.waiptn != 0
    ensures forall w :: w in q ==> !Meets(0, w.info)
  {
    hide Meets;
    forall w | w in q
      ensures !Meets(0, w.info)
    {
      ZeroMeetsNobody(w.info);
    }
  }

  lemma {:induction false} UnmetShorter(q: seq<Waiter<Cond>>, p: Flgptn)
    ensures |Unmet(q, p)| <= |q|
  {
    if q != [] {
      UnmetShorter(q[1..], p);
    }
  }

  /** A queue stays in order without the satisfied waiters. */
  lemma {:induction false} UnmetOk(q: seq<Waiter<Cond>>, p: Flgptn, tpri: bool, pri: seq<nat>)
    requires QueueOk(TskIds(q), tpri, pri)
    ensures QueueOk(TskIds(Unmet(q, p)), tpri, pri)
  {
    hide Meets, QueueOk;
    if q != [] {
      HeadLeaves(q, tpri, pri);
      UnmetOk(q[1..], p, tpri, pri);
      HeadStays(q, Unmet(q[1..], p), tpri, pri);
      assert [] + Unmet(q[1..], p) == Unmet(q[1..], p);
    }
  }

  lemma HeadStays(q: seq<Waiter<Cond>>, r: seq<Waiter<Cond>>, tpri: bool, pri: seq<nat>)
    requires q != [] && QueueOk(TskIds(q), tpri, pri) && QueueOk(TskIds(r), tpri, pri)
    requires forall w :: w in r ==> w in q[1..]
    ensures QueueOk(TskIds([q[0]] + r), tpri, pri)
  {
    forall j | 0 <= j < |r|
      ensures r[j].tsk != q[0].tsk && (tpri ==> Pri(pri, q[0].tsk) <= Pri(pri, r[j].tsk))
    {
      assert r[j] in q[1..];
      var k :| 0 <= k < |q[1..]| && q[1..][k] == r[j];
      assert TskIds(q)[k + 1] == r[j].tsk && TskIds(q)[0] == q[0].tsk;
    }
    assert TskIds([q[0]] + r) == [q[0].tsk] + TskIds(r);
  }

  lemma SameMembers(q: seq<Waiter<Cond>>, w: Waiter<Cond>, r: seq<Waiter<Cond>>)
    requires multiset(r) == multiset(q) + multiset{w}
    ensures |r| == |q| + 1 && forall x :: x in r <==> x in q || x == w
  {
    assert |multiset(r)| == |r| && |multiset(q)| == |q|;
    assert forall x :: x in r <==> x in multiset(r);
  }
}
