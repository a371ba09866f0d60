/** kernel/mempfix.c: a pool of memory blocks of one size, with the free list kept as
    indices in the array of management blocks. */
module MemPool {
  import opened Basics
  import opened OrderedList
  import opened WaitQueue
  import opened TimeEvent
  import opened KernelSpec

  // The values of `next` that are not an index.
  const INDEX_NULL: nat := 0xffff_ffff
  const INDEX_ALLOC: nat := 0xffff_fffe

  /** The free blocks are chained in this order. */
  ghost predicate FreeChain(next: seq<nat>, freelist: nat, free: seq<nat>) {
    && freelist == (if free == [] then INDEX_NULL else free[0])
    && forall i {:trigger free[i]} :: 0 <= i < |free| ==>
         free[i] < |next| && next[free[i]] == if i + 1 < |free| then free[i + 1] else INDEX_NULL
  }

  /** Of the blocks that have been used, those outside the free list are allocated. */
  ghost predicate Marks(next: seq<nat>, free: seq<nat>, unused: nat) {
    && NoDup(free) && unused <= |next| < INDEX_ALLOC
    && (forall b: nat {:trigger b in free} :: b in free ==> b < unused)
    && (forall b: nat {:trigger next[b]} :: b < unused ==> (next[b] == INDEX_ALLOC <==> b !in free))
  }

  /** The address of block `i` of a pool at `mpf` with blocks of size `sz`. */
  function Addr(mpf: int, sz: nat, i: nat): int {
    mpf + sz * i
  }

  lemma AddrApart(mpf: int, sz: nat, i: nat, j: nat)
    requires i < j
    ensures Addr(mpf, sz, i) + sz <= Addr(mpf, sz, j)
  {
    assert sz * j == sz * i + sz + sz * (j - i - 1);
  }

  /** Addresses can be told apart, and division finds the block again. */
  lemma AddrOf(mpf: int, sz: nat, i: nat)
    requires 0 < sz
    ensures (Addr(mpf, sz, i) - mpf) / sz == i && (Addr(mpf, sz, i) - mpf) % sz == 0
  {
    DivUnique(sz * i, sz, i, 0);
  }

  lemma AddrAt(mpf: int, sz: nat, blk: int)
    requires 0 < sz && mpf <= blk && (blk - mpf) % sz == 0
    ensures blk == Addr(mpf, sz, (blk - mpf) / sz)
  {
  }

  /** The addresses of the allocated blocks. */
  ghost function Taken(mpf: int, sz: nat, free: seq<nat>, unused: nat): set<int> {
    set i: nat {:trigger i in free} | i < unused && i !in free :: Addr(mpf, sz, i)
  }

  class Pool {
    const mpf: Word      // the address of the first block
    const blksz: nat
    const tpri: bool
    const mb: array<nat>
    var freelist: nat
    var unused: nat
    var fblkcnt: nat
    var wait: seq<nat>
    var priority: seq<nat>  // the current priorities of the tasks

    ghost var free: seq<nat>

    ghost predicate Fits() {
      0 < blksz && Addr(mpf, blksz, mb.Length) <= WORD
    }

    ghost predicate Valid()
      reads this, mb
    {
      && Fits()
      && FreeChain(mb[..], freelist, free)
      && Marks(mb[..], free, unused)
      && fblkcnt == |free| + mb.Length - unused
      && QueueOk(wait, tpri, priority) && (wait != [] ==> fblkcnt == 0)
    }

    /** The addresses of the blocks that tasks have got and not returned. */
    ghost function Outstanding(): set<int>
      reads this
    {
      Taken(mpf, blksz, free, unused)
    }

    constructor (mpf: Word, blkcnt: nat, blksz: nat, tpri: bool, priority: seq<nat>)
      requires 0 < blksz && Addr(mpf, blksz, blkcnt) <= WORD && blkcnt < INDEX_ALLOC
      ensures Valid() && Outstanding() == {} && fblkcnt == blkcnt && wait == [] && fresh(mb)
      ensures this.mpf == mpf && this.blksz == blksz && mb.Length == blkcnt
      ensures this.tpri == tpri && this.priority == priority
    {
      this.mpf, this.blksz, this.tpri, this.priority := mpf, blksz, tpri, priority;
      mb := new nat[blkcnt](_ => 0);
      freelist, unused, fblkcnt, wait := INDEX_NULL, 0, blkcnt, [];
      free := [];
    }

    /** Blocks that are outstanding lie in the pool and do not overlap. */
    lemma BlocksApart(a: int, b: int)
      requires Valid() && a in Outstanding() && b in Outstanding() && a != b
      ensures mpf <= a && a + blksz <= Addr(mpf, blksz, mb.Length) <= WORD
      ensures a + blksz <= b || b + blksz <= a
    {
      hide Addr, FreeChain, Marks, QueueOk;
      PoolFacts(mb[..], freelist, free, unused);
      var i: nat :| i < unused && i !in free && a == Addr(mpf, blksz, i);
      var j: nat :| j < unused && j !in free && b == Addr(mpf, blksz, j);
      InPool(i);
      if i < j {
        AddrApart(mpf, blksz, i, j);
      } else {
        AddrApart(mpf, blksz, j, i);
      }
    }

    lemma InPool(i: nat)
      requires Fits() && i < mb.Length
      ensures mpf <= Addr(mpf, blksz, i) && Addr(mpf, blksz, i) + blksz <= Addr(mpf, blksz, mb.Length) <= WORD
      ensures 0 <= Addr(mpf, blksz, i) < WORD
    {
      AddrApart(mpf, blksz, i, mb.Length);
    }

    /** get_mpf_block. */
    method GetMpfBlock() returns (blk: Word)
      requires Valid() && fblkcnt > 0
      modifies `freelist, `unused, `fblkcnt, `free, mb
      ensures Valid() && fblkcnt == old(fblkcnt) - 1
      ensures blk !in old(Outstanding()) && Outstanding() == old(Outstanding()) + {blk}
    {
      hide Addr, FreeChain, Marks, QueueOk, Taken;
      PoolFacts(mb[..], freelist, free, unused);
      var blkidx;
      ghost var free0 := free;
      if freelist != INDEX_NULL {
        blkidx := freelist;
        TakeFree(mb[..], freelist, free, unused);
        freelist := mb[blkidx];
        free := free[1..];
      } else {
        blkidx := unused;
        TakeUnused(mb[..], freelist, free, unused);
        unused := unused + 1;
      }
      InPool(blkidx);
      blk := Addr(mpf, blksz, blkidx);
      fblkcnt := fblkcnt - 1;
      mb[blkidx] := INDEX_ALLOC;
      NewBlock(mpf, blksz, free0, old(unused), free, unused, blkidx);
    }

    /** get_mpf (with TMO_FEVR) and tget_mpf: a block, or a place in the queue. */
    method GetMpf(t: nat, tmo: Tmo, dspflg: bool, waifbd: bool) returns (blk: Option<Word>, ret: Ret)
      requires Valid() && t !in wait
      modifies `freelist, `unused, `fblkcnt, `free, `wait, mb
      ensures Valid()
      ensures ret == if !dspflg then Ret(E_CTX)
                     else if tmo < TMO_FEVR then Ret(E_PAR)
                     else if old(fblkcnt) > 0 then Ret(E_OK)
                     else if tmo == TMO_POL then Ret(E_TMOUT)
                     else if waifbd then Ret(E_RLWAI)
                     else KernelSpec.Blocks
      ensures ret == Ret(E_OK) ==>
                && blk.Some? && blk.value !in old(Outstanding()) && Outstanding() == old(Outstanding()) + {blk.value}
      ensures ret != Ret(E_OK) ==> blk == None && Outstanding() == old(Outstanding())
      ensures wait == if ret.Blocks? then Joined(old(wait), tpri, priority, t) else old(wait)
    {
      hide FreeChain, Marks, Taken, Joined, QueueOk;
      if !dspflg {
        return None, Ret(E_CTX);
      }
      if tmo < TMO_FEVR {
        return None, Ret(E_PAR);
      }
      if fblkcnt > 0 {
        var b := GetMpfBlock();
        return Some(b), Ret(E_OK);
      }
      if tmo == TMO_POL {
        return None, Ret(E_TMOUT);
      }
      if waifbd {
        return None, Ret(E_RLWAI);
      }
      var i := PlaceOf(wait, tpri, priority, t);
      JoinedOk(wait, tpri, priority, t);
      wait := wait[..i] + [t] + wait[i..];
      return None, KernelSpec.Blocks;
    }

    /** pget_mpf, which never waits. */
    method PgetMpf() returns (blk: Option<Word>, ret: Ret)
      requires Valid()
      modifies `freelist, `unused, `fblkcnt, `free, mb
      ensures Valid()
      ensures ret == if old(fblkcnt) > 0 then Ret(E_OK) else Ret(E_TMOUT)
      ensures if ret == Ret(E_OK)
              then blk.Some? && blk.value !in old(Outstanding()) && Outstanding() == old(Outstanding()) + {blk.value}
              else blk == None && Outstanding() == old(Outstanding())
    {
      hide FreeChain, Marks, Taken, QueueOk;
      if fblkcnt > 0 {
        var b := GetMpfBlock();
        return Some(b), Ret(E_OK);
      }
      return None, Ret(E_TMOUT);
    }

    /** wobj_change_priority: the priority of task `t` has become `p`. */
    method ChangePriority(t: nat, p: nat)
      requires Valid() && t < |priority|
      modifies `wait, `priority
      ensures Valid() && priority == old(priority)[t := p] && wait == Moved(old(wait), tpri, priority, t)
    {
      hide FreeChain, Marks, QueueOk, InsertLast, Remove;
      MovedOk(wait, tpri, priority, t, p);
      priority := priority[t := p];
      if tpri && t in wait {
        var rest := Remove(wait, t);
        var i := PlaceTpri(rest, priority, t);
        wait := rest[..i] + [t] + rest[i..];
      }
    }

    /** rel_mpf: accepts exactly the addresses of outstanding blocks.  A block that goes to
        a waiting task stays allocated. */
    method RelMpf(blk: Word) returns (er: Er, woken: Option<nat>)
      requires Valid()
      modifies `freelist, `fblkcnt, `free, `wait, mb
      ensures Valid()
      ensures er == if blk in old(Outstanding()) then E_OK else E_PAR
      ensures er == E_PAR ==> woken == None && Outstanding() == old(Outstanding()) && wait == old(wait)
      ensures er == E_OK && old(wait) != [] ==>
                woken == Some(old(wait)[0]) && wait == old(wait)[1..] && Outstanding() == old(Outstanding())
      ensures er == E_OK && old(wait) == [] ==>
                && woken == None && wait == [] && fblkcnt == old(fblkcnt) + 1
                && Outstanding() == old(Outstanding()) - {blk}
    {
      hide Addr, FreeChain, Marks, Taken, QueueOk;
      PoolFacts(mb[..], freelist, free, unused);
      var blkoffset := (blk - mpf) % WORD;
      var blkidx := blkoffset / blksz;
      Accepts(mpf, blksz, mb[..], free, unused, blk);
      if !(mpf <= blk) || !(blkoffset % blksz == 0) || !(blkoffset / blksz < unused) || !(mb[blkidx] == INDEX_ALLOC) {
        return E_PAR, None;
      }
      if wait != [] {
        var t := wait[0];
        HeadGoes(wait, tpri, priority);
        wait := wait[1..];
        return E_OK, Some(t);
      }
      ReturnFree(mb[..], freelist, free, unused, blkidx);
      OldBlock(mpf, blksz, free, unused, blkidx);
      fblkcnt := fblkcnt + 1;
      mb[blkidx] := freelist;
      freelist := blkidx;
      free := [blkidx] + free;
      return E_OK, None;
    }

    /** A waiting task gives up: timeout, rel_wai or ter_tsk. */
    method GiveUpWaiting(t: nat)
      requires Valid() && t in wait
      modifies `wait
      ensures Valid() && wait == Remove(old(wait), t)
    {
      RemoveNoDup(wait, t);
      if tpri {
        RemoveSorted(wait, priority, t);
      }
      wait := Remove(wait, t);
    }

    /** ini_mpf: everybody who waits is woken with E_DLT, and every block is free again. */
    method InitMpf() returns (woken: seq<nat>)
      requires Valid()
      modifies `freelist, `unused, `fblkcnt, `free, `wait
      ensures Valid() && Outstanding() == {} && fblkcnt == mb.Length && wait == [] && woken == old(wait)
    {
      woken := wait;
      fblkcnt, unused, freelist, wait := mb.Length, 0, INDEX_NULL, [];
      free := [];
    }
  }

  lemma HeadGoes(q: seq<nat>, tpri: bool, pri: seq<nat>)
    requires q != [] && QueueOk(q, tpri, pri)
    ensures QueueOk(q[1..], tpri, pri)
  {
  }

  // ----- Steps of taking and returning a block ------------------------------

  lemma PoolFacts(next: seq<nat>, freelist: nat, free: seq<nat>, unused: nat)
    requires FreeChain(next, freelist, free) && Marks(next, free, unused)
    ensures unused <= |next| < INDEX_ALLOC && NoDup(free)
    ensures freelist == INDEX_NULL <==> free == []
    ensures free != [] ==> freelist == free[0]
  {
    assert free != [] ==> free[0] in free;
  }

  lemma NewBlock(mpf: int, sz: nat, free0: seq<nat>, unused0: nat, free1: seq<nat>, unused1: nat, b: nat)
    requires 0 < sz && b < unused1 && b !in free1 && (b < unused0 ==> b in free0)
    requires forall i: nat :: i != b ==> (i < unused1 && i !in free1 <==> i < unused0 && i !in free0)
    ensures Taken(mpf, sz, free1, unused1) == Taken(mpf, sz, free0, unused0) + {Addr(mpf, sz, b)}
    ensures Addr(mpf, sz, b) !in Taken(mpf, sz, free0, unused0)
  {
    hide Addr;
    forall i: nat | i != b
      ensures Addr(mpf, sz, i) != Addr(mpf, sz, b)
    {
      if i < b {
        AddrApart(mpf, sz, i, b);
      } else {
        AddrApart(mpf, sz, b, i);
      }
    }
    var s0, s1 := Taken(mpf, sz, free0, unused0), Taken(mpf, sz, free1, unused1);
    forall a
      ensures a in s1 <==> a in s0 || a == Addr(mpf, sz, b)
    {
      if a in s1 {
        var i: nat :| i < unused1 && i !in free1 && a == Addr(mpf, sz, i);
        assert i != b ==> i !in free0;
      }
      if a in s0 {
        var i: nat :| i < unused0 && i !in free0 && a == Addr(mpf, sz, i);
        assert i !in free1;
      }
    }
  }

  lemma OldBlock(mpf: int, sz: nat, free: seq<nat>, unused: nat, b: nat)
    requires 0 < sz && b < unused && b !in free
    ensures Taken(mpf, sz, [b] + free, unused) == Taken(mpf, sz, free, unused) - {Addr(mpf, sz, b)}
  {
    NewBlock(mpf, sz, [b] + free, unused, free, unused, b);
  }

  /** The checks of rel_mpf succeed exactly for the allocated blocks. */
  lemma Accepts(mpf: Word, sz: nat, next: seq<nat>, free: seq<nat>, unused: nat, blk: Word)
    requires 0 < sz && Marks(next, free, unused)
    ensures var off := (blk - mpf) % WORD;
            && (mpf <= blk && off % sz == 0 && off / sz < unused && next[off / sz] == INDEX_ALLOC
                <==> blk in Taken(mpf, sz, free, unused))
            && (mpf <= blk && off % sz == 0 && off / sz < unused && next[off / sz] == INDEX_ALLOC
                ==> off / sz !in free && blk == Addr(mpf, sz, off / sz))
  {
    hide Addr;
    var off := (blk - mpf) % WORD;
    if mpf <= blk && off % sz == 0 && off / sz < unused && next[off / sz] == INDEX_ALLOC {
      assert off == blk - mpf;
      AddrAt(mpf, sz, blk);
      var i: nat := off / sz;
      assert i !in free;
    }
    if blk in Taken(mpf, sz, free, unused) {
      var i: nat :| i < unused && i !in free && blk == Addr(mpf, sz, i);
      if i > 0 {
        AddrApart(mpf, sz, 0, i);
      }
      AddrZero(mpf, sz);
      AddrOf(mpf, sz, i);
      assert off == blk - mpf;
    }
  }

  lemma AddrZero(mpf: int, sz: nat)
    ensures Addr(mpf, sz, 0) == mpf
  {
  }

  lemma TakeFree(next: seq<nat>, freelist: nat, free: seq<nat>, unused: nat)
    requires FreeChain(next, freelist, free) && Marks(next, free, unused) && free != []
    ensures var b := free[0];
            var next1 := next[b := INDEX_ALLOC];
            && FreeChain(next1, next[b], free[1..]) && Marks(next1, free[1..], unused)
            && b < unused && b !in free[1..] && free[0] == freelist
            && (forall i: nat :: i in free <==> i == b || i in free[1..])
  {
    var b, rest := free[0], free[1..];
    assert free == [b] + rest;
    HeadOnce(b, rest);
    assert b in free;
    ChainRest(next, freelist, b, rest);
    assert forall i: nat :: i in rest ==> i in free;
  }

  lemma HeadOnce(b: nat, rest: seq<nat>)
    requires NoDup([b] + rest)
    ensures b !in rest && NoDup(rest)
    ensures forall i: nat :: i in [b] + rest <==> i == b || i in rest
  {
    var free := [b] + rest;
    assert forall j :: 0 <= j < |rest| ==> rest[j] == free[j + 1];
    forall j | 0 <= j < |rest|
      ensures rest[j] != b
    {
      assert free[0] != free[j + 1];
    }
  }

  lemma ChainRest(next: seq<nat>, freelist: nat, b: nat, rest: seq<nat>)
    requires FreeChain(next, freelist, [b] + rest) && b !in rest
    ensures b < |next| && FreeChain(next[b := INDEX_ALLOC], next[b], rest)
  {
    var free := [b] + rest;
    assert free[0] == b;
    forall i | 0 <= i < |rest|
      ensures rest[i] < |next|
      ensures next[b := INDEX_ALLOC][rest[i]] == if i + 1 < |rest| then rest[i + 1] else INDEX_NULL
    {
      assert free[i + 1] == rest[i] && rest[i] != b;
    }
  }

  lemma TakeUnused(next: seq<nat>, freelist: nat, free: seq<nat>, unused: nat)
    requires FreeChain(next, freelist, free) && Marks(next, free, unused) && free == [] && unused < |next|
    ensures var next1 := next[unused := INDEX_ALLOC];
            FreeChain(next1, freelist, free) && Marks(next1, free, unused + 1)
  {
  }

  lemma ReturnFree(next: seq<nat>, freelist: nat, free: seq<nat>, unused: nat, b: nat)
    requires FreeChain(next, freelist, free) && Marks(next, free, unused) && b < unused && b !in free
    ensures var next1 := next[b := freelist];
            FreeChain(next1, b, [b] + free) && Marks(next1, [b] + free, unused)
  {
    hide FreeChain, Marks;
    MarkedLength(next, free, unused);
    LinkFree(next, freelist, free, b);
    MarkFree(next, freelist, free, unused, b);
  }

  lemma MarkedLength(next: seq<nat>, free: seq<nat>, unused: nat)
    requires Marks(next, free, unused)
    ensures unused <= |next|
  {
  }

  lemma LinkFree(next: seq<nat>, freelist: nat, free: seq<nat>, b: nat)
    requires FreeChain(next, freelist, free) && b < |next| && b !in free
    ensures FreeChain(next[b := freelist], b, [b] + free)
  {
    var next1, free1 := next[b := freelist], [b] + free;
    forall i | 0 <= i < |free1|
      ensures free1[i] < |next1| && next1[free1[i]] == if i + 1 < |free1| then free1[i + 1] else INDEX_NULL
    {
      assert i > 0 ==> free1[i] == free[i - 1] && free[i - 1] in free;
    }
  }

  lemma MarkFree(next: seq<nat>, freelist: nat, free: seq<nat>, unused: nat, b: nat)
    requires FreeChain(next, freelist, free) && Marks(next, free, unused) && b < unused && b !in free
    ensures Marks(next[b := freelist], [b] + free, unused)
  {
    hide FreeChain;
    FirstFree(next, freelist, free);
    assert free != [] ==> free[0] in free;
    assert [] + [b] + free == [b] + free && free[..0] == [] && free[0..] == free;
    InsertNoDup(free, 0, b);
  }

  lemma FirstFree(next: seq<nat>, freelist: nat, free: seq<nat>)
    requires FreeChain(next, freelist, free)
    ensures freelist == if free == [] then INDEX_NULL else free[0]
  {
  }
}
