/** kernel/time_event.c and kernel/time_event.h: the time-event heap.

    The heap lives in an array and is changed in place; every heap node names an
    event block and every registered block knows its node.  Event times are 32-bit
    words that are compared relative to a moving `minTime`.  The ghost fields hold
    the same times as unbounded integers, and `Valid` ties the two together. */
module TimeEvent {
  import opened Basics

  // ----- 32-bit event times -------------------------------------------------

  const WORD: int := 0x1_0000_0000

  type Word = x: int | 0 <= x < 0x1_0000_0000

  // Largest relative time a caller may give.
  const TMAX_RELTIM: int := 0x7fff_ffff

  function ToWord(t: int): Word {
    t % WORD
  }

  lemma AddToWord(t: int, k: int)
    ensures ToWord(ToWord(t) + k) == ToWord(t + k)
  {
    var q := t / WORD;
    assert ToWord(t) + k == (t + k) - WORD * q;
  }

  predicate EvttimLt(t1: Word, t2: Word, minTime: Word) {
    (t1 - minTime) % WORD < (t2 - minTime) % WORD
  }

  predicate EvttimLe(t1: Word, t2: Word, minTime: Word) {
    (t1 - minTime) % WORD <= (t2 - minTime) % WORD
  }

  /** `t` can be told apart from every other time of the window that starts at `min`. */
  predicate InWindow(t: int, min: int) {
    min <= t < min + WORD
  }

  lemma WindowOffset(t: int, min: int)
    requires InWindow(t, min)
    ensures (ToWord(t) - ToWord(min)) % WORD == t - min
  {
    var k := t / WORD - min / WORD;
    assert ToWord(t) - ToWord(min) == (t - min) - WORD * k;
  }

  /** Comparing two words relative to `minTime` compares the unbounded times,
      whether or not the words have wrapped around. */
  lemma CompareAcrossWrap(a: int, b: int, min: int)
    requires InWindow(a, min) && InWindow(b, min)
    ensures EvttimLt(ToWord(a), ToWord(b), ToWord(min)) <==> a < b
    ensures EvttimLe(ToWord(a), ToWord(b), ToWord(min)) <==> a <= b
  {
    WindowOffset(a, min);
    WindowOffset(b, min);
  }

  /** Moving the reference point forward keeps every comparison, as long as both times
      are still inside the old and the new window. */
  lemma AdvanceKeepsOrder(a: int, b: int, min: int, min': int)
    requires InWindow(a, min) && InWindow(b, min)
    requires min <= min' <= a && min' <= b
    ensures EvttimLe(ToWord(a), ToWord(b), ToWord(min')) <==> EvttimLe(ToWord(a), ToWord(b), ToWord(min))
  {
    CompareAcrossWrap(a, b, min);
    CompareAcrossWrap(a, b, min');
  }

  // ----- Event blocks and heap nodes ----------------------------------------

  // The owner of an event block: a waiting task, a cyclic or an alarm handler.
  datatype Blk = Tsk(id: nat) | Cyc(id: nat) | Alm(id: nat)

  // The callback functions the kernel registers.
  datatype Cback = WaitTmout | WaitTmoutOk | CallCychdr | CallAlmhdr

  datatype Tmevtb = Tmevtb(index: nat, callback: Cback)

  datatype Tmevtn = Tmevtn(time: Word, blk: Blk)

  /** The node at the 1-based position `i`. */
  function Node(h: seq<Tmevtn>, i: int): Tmevtn
    requires 1 <= i <= |h|
  {
    h[i - 1]
  }

  /** The unbounded event time of the node at position `i`. */
  ghost function Key(h: seq<Tmevtn>, ev: map<Blk, int>, i: int): int {
    if 1 <= i <= |h| && Node(h, i).blk in ev then ev[Node(h, i).blk] else 0
  }

  predicate IsChild(p: int, c: int) {
    c == 2 * p || c == 2 * p + 1
  }

  /** Nodes `1..last`, except the empty node `hole`, are in one-to-one correspondence
      with the blocks of `ev`, through the blocks' `index`. */
  ghost predicate Linked(h: seq<Tmevtn>, blk: map<Blk, Tmevtb>, ev: map<Blk, int>, last: int, hole: int) {
    && 0 <= last <= |h|
    && (forall i {:trigger Node(h, i)} :: 1 <= i <= last && i != hole ==>
         && Node(h, i).blk in ev
         && Node(h, i).blk in blk
         && blk[Node(h, i).blk].index == i
         && Node(h, i).time == ToWord(ev[Node(h, i).blk]))
    && (forall b {:trigger b in ev} :: b in ev ==>
         && b in blk
         && 1 <= blk[b].index <= last
         && blk[b].index != hole
         && Node(h, blk[b].index).blk == b)
  }

  /** No node is later than its children, leaving out the empty node `hole`. */
  ghost predicate Ordered(h: seq<Tmevtn>, ev: map<Blk, int>, last: int, hole: int) {
    forall p, c {:trigger Key(h, ev, p), Key(h, ev, c)} ::
      1 <= p && IsChild(p, c) && c <= last && p != hole && c != hole ==> Key(h, ev, p) <= Key(h, ev, c)
  }

  /** The parent of the empty node is not later than the children of the empty node. */
  ghost predicate Bridged(h: seq<Tmevtn>, ev: map<Blk, int>, last: int, hole: int) {
    forall p, c {:trigger Key(h, ev, p), Key(h, ev, c)} ::
      1 <= p && IsChild(p, hole) && IsChild(hole, c) && c <= last ==> Key(h, ev, p) <= Key(h, ev, c)
  }

  ghost predicate BelowHole(h: seq<Tmevtn>, ev: map<Blk, int>, last: int, hole: int, t: int) {
    forall c {:trigger Key(h, ev, c)} :: IsChild(hole, c) && c <= last ==> t <= Key(h, ev, c)
  }

  ghost predicate AboveHole(h: seq<Tmevtn>, ev: map<Blk, int>, hole: int, t: int) {
    forall p {:trigger Key(h, ev, p)} :: 1 <= p && IsChild(p, hole) ==> Key(h, ev, p) <= t
  }

  ghost predicate AllInWindow(ev: map<Blk, int>, min: int) {
    forall b {:trigger ev[b]} :: b in ev ==> InWindow(ev[b], min)
  }

  /** A heap with an empty node at `hole` into which time `t` is to be put. */
  ghost predicate Hollow(h: seq<Tmevtn>, blk: map<Blk, Tmevtb>, ev: map<Blk, int>, last: int, hole: int) {
    Linked(h, blk, ev, last, hole) && Ordered(h, ev, last, hole) && Bridged(h, ev, last, hole)
  }

  // ----- One step of the empty node -----------------------------------------

  function MoveNode(h: seq<Tmevtn>, src: int, dst: int): (h': seq<Tmevtn>)
    requires 1 <= src <= |h| && 1 <= dst <= |h|
  {
    h[dst - 1 := Node(h, src)]
  }

  function SetIndex(blk: map<Blk, Tmevtb>, b: Blk, i: nat): map<Blk, Tmevtb>
    requires b in blk
  {
    blk[b := blk[b].(index := i)]
  }

  lemma MoveLinked(h: seq<Tmevtn>, blk: map<Blk, Tmevtb>, ev: map<Blk, int>, last: int, hole: int, src: int)
    requires Linked(h, blk, ev, last, hole)
    requires 1 <= hole <= last && 1 <= src <= last && src != hole
    ensures Linked(MoveNode(h, src, hole), SetIndex(blk, Node(h, src).blk, hole), ev, last, src)
  {
    var h' := MoveNode(h, src, hole);
    assert forall i :: 1 <= i <= |h| ==> Node(h', i) == if i == hole then Node(h, src) else Node(h, i);
  }

  lemma MoveKeys(h: seq<Tmevtn>, ev: map<Blk, int>, hole: int, src: int)
    requires 1 <= hole <= |h| && 1 <= src <= |h|
    ensures forall i :: Key(MoveNode(h, src, hole), ev, i) == if i == hole then Key(h, ev, src) else Key(h, ev, i)
  {
    var h' := MoveNode(h, src, hole);
    assert forall i :: 1 <= i <= |h| ==> Node(h', i) == if i == hole then Node(h, src) else Node(h, i);
  }

  lemma MoveUp(h: seq<Tmevtn>, blk: map<Blk, Tmevtb>, ev: map<Blk, int>, last: int, hole: int, p: int, t: int)
    requires Hollow(h, blk, ev, last, hole) && BelowHole(h, ev, last, hole, t)
    requires 1 <= hole <= last && 1 <= p && IsChild(p, hole) && t < Key(h, ev, p)
    ensures Hollow(MoveNode(h, p, hole), SetIndex(blk, Node(h, p).blk, hole), ev, last, p)
    ensures BelowHole(MoveNode(h, p, hole), ev, last, p, t)
  {
    MoveLinked(h, blk, ev, last, hole, p);
    MoveKeys(h, ev, hole, p);
    var h' := MoveNode(h, p, hole);
    forall c | IsChild(p, c) && c <= last
      ensures Key(h, ev, p) <= Key(h', ev, c)
    {
      assert c == hole || Key(h', ev, c) == Key(h, ev, c);
    }
    forall q, c | 1 <= q && IsChild(q, p) && IsChild(p, c) && c <= last
      ensures Key(h', ev, q) <= Key(h', ev, c)
    {
      assert Key(h, ev, q) <= Key(h, ev, p);
    }
    forall q, c | 1 <= q && IsChild(q, c) && c <= last && q != p && c != p
      ensures Key(h', ev, q) <= Key(h', ev, c)
    {
      if q == hole {
        assert Key(h, ev, p) <= Key(h, ev, c);
      } else {
        assert c != hole;
        assert Key(h, ev, q) <= Key(h, ev, c);
      }
    }
  }

  lemma MoveDown(h: seq<Tmevtn>, blk: map<Blk, Tmevtb>, ev: map<Blk, int>, last: int, hole: int, c: int, t: int)
    requires Hollow(h, blk, ev, last, hole) && AboveHole(h, ev, hole, t)
    requires 1 <= hole && IsChild(hole, c) && c <= last && Key(h, ev, c) < t
    requires forall d {:trigger Key(h, ev, d)} :: IsChild(hole, d) && d <= last ==> Key(h, ev, c) <= Key(h, ev, d)
    ensures Hollow(MoveNode(h, c, hole), SetIndex(blk, Node(h, c).blk, hole), ev, last, c)
    ensures AboveHole(MoveNode(h, c, hole), ev, c, t)
  {
    MoveLinked(h, blk, ev, last, hole, c);
    MoveKeys(h, ev, hole, c);
    var h' := MoveNode(h, c, hole);
    forall d | IsChild(c, d) && d <= last
      ensures Key(h', ev, hole) <= Key(h', ev, d)
    {
      assert Key(h, ev, c) <= Key(h, ev, d);
    }
    forall p, d | 1 <= p && IsChild(p, d) && d <= last && p != c && d != c
      ensures Key(h', ev, p) <= Key(h', ev, d)
    {
      if p == hole {
        assert Key(h, ev, c) <= Key(h, ev, d);
      } else if d == hole {
        assert Key(h, ev, p) <= Key(h, ev, c);
      } else {
        assert Key(h, ev, p) <= Key(h, ev, d);
      }
    }
  }

  // ----- Opening and filling the empty node ---------------------------------

  /** Leaving out the block at node `hole` makes that node empty. */
  lemma OpenHole(h: seq<Tmevtn>, blk: map<Blk, Tmevtb>, ev: map<Blk, int>, last: int, hole: int)
    requires Linked(h, blk, ev, last, 0) && Ordered(h, ev, last, 0)
    requires 1 <= hole <= last
    ensures Hollow(h, blk, ev - {Node(h, hole).blk}, last, hole)
    ensures forall i :: 1 <= i <= last && i != hole ==> Key(h, ev - {Node(h, hole).blk}, i) == Key(h, ev, i)
  {
    var b := Node(h, hole).blk;
    var ev' := ev - {b};
    forall i | 1 <= i <= last && i != hole
      ensures Node(h, i).blk in ev' && Key(h, ev', i) == Key(h, ev, i)
    {
      assert blk[Node(h, i).blk].index == i;
    }
    forall p, c | 1 <= p && IsChild(p, c) && c <= last && p != hole && c != hole
      ensures Key(h, ev', p) <= Key(h, ev', c)
    {
      assert Key(h, ev, p) <= Key(h, ev, c);
    }
    forall p, c | 1 <= p && IsChild(p, hole) && IsChild(hole, c) && c <= last
      ensures Key(h, ev', p) <= Key(h, ev', c)
    {
      assert Key(h, ev, p) <= Key(h, ev, hole) <= Key(h, ev, c);
    }
  }

  /** Dropping the last node drops its block and nothing else. */
  lemma DropLast(h: seq<Tmevtn>, blk: map<Blk, Tmevtb>, ev: map<Blk, int>, last: int, hole: int)
    requires Hollow(h, blk, ev, last, hole)
    requires 1 <= last
    ensures hole != last ==> Hollow(h, blk, ev - {Node(h, last).blk}, last - 1, hole)
    ensures hole == last ==> Hollow(h, blk, ev, last - 1, hole)
    ensures hole != last ==>
              forall i :: 1 <= i < last && i != hole ==> Key(h, ev - {Node(h, last).blk}, i) == Key(h, ev, i)
  {
    if hole != last {
      var b := Node(h, last).blk;
      var ev' := ev - {b};
      forall i | 1 <= i < last && i != hole
        ensures Node(h, i).blk in ev' && Key(h, ev', i) == Key(h, ev, i)
      {
        assert blk[Node(h, i).blk].index == i;
      }
      forall p, c | 1 <= p && IsChild(p, c) && c <= last - 1 && p != hole && c != hole
        ensures Key(h, ev', p) <= Key(h, ev', c)
      {
        assert Key(h, ev, p) <= Key(h, ev, c);
      }
      forall p, c | 1 <= p && IsChild(p, hole) && IsChild(hole, c) && c <= last - 1
        ensures Key(h, ev', p) <= Key(h, ev', c)
      {
        assert Key(h, ev, p) <= Key(h, ev, c);
      }
    }
  }

  lemma FillHole(h: seq<Tmevtn>, blk: map<Blk, Tmevtb>, ev: map<Blk, int>, last: int, hole: int, b: Blk, t: int)
    requires Hollow(h, blk, ev, last, hole)
    requires BelowHole(h, ev, last, hole, t) && AboveHole(h, ev, hole, t)
    requires 1 <= hole <= last && b !in ev && b in blk
    ensures var h' := h[hole - 1 := Tmevtn(ToWord(t), b)];
            && Linked(h', SetIndex(blk, b, hole), ev[b := t], last, 0)
            && Ordered(h', ev[b := t], last, 0)
  {
    var h' := h[hole - 1 := Tmevtn(ToWord(t), b)];
    var ev' := ev[b := t];
    assert forall i :: 1 <= i <= |h| ==> Node(h', i) == if i == hole then Tmevtn(ToWord(t), b) else Node(h, i);
    forall i | 1 <= i <= last
      ensures Key(h', ev', i) == if i == hole then t else Key(h, ev, i)
    {
      assert i != hole ==> Node(h, i).blk in ev;
    }
    forall p, c | 1 <= p && IsChild(p, c) && c <= last
      ensures Key(h', ev', p) <= Key(h', ev', c)
    {
      assert p != hole && c != hole ==> Key(h, ev, p) <= Key(h, ev, c);
    }
  }

  /** The root of an ordered heap is its earliest node. */
  lemma {:induction false} RootIsEarliest(h: seq<Tmevtn>, ev: map<Blk, int>, last: int, i: int)
    requires Ordered(h, ev, last, 0) && 1 <= i <= last
    ensures Key(h, ev, 1) <= Key(h, ev, i)
    decreases i
  {
    if i > 1 {
      assert IsChild(i / 2, i);
      RootIsEarliest(h, ev, last, i / 2);
      assert Key(h, ev, i / 2) <= Key(h, ev, i);
    }
  }

  lemma RemoveCard(ev: map<Blk, int>, b: Blk)
    requires b in ev
    ensures |ev - {b}| == |ev| - 1
  {
    assert (ev - {b}).Keys == ev.Keys - {b};
  }

  // ----- Tick arithmetic ----------------------------------------------------

  /** The tick period as a fraction of a millisecond. */
  datatype Period = Period(nume: nat, deno: nat) {
    ghost predicate Ok() {
      0 < nume && 0 < deno && nume / deno <= 0x3fff_fffe
    }

    /** System time, in whole milliseconds, at tick `n`. */
    ghost function Floor(n: nat): nat
      requires Ok()
    {
      (n * nume) / deno
    }

    /** The first whole millisecond that is not before tick `n`. */
    ghost function Ceil(n: nat): nat
      requires Ok()
    {
      (n * nume + deno - 1) / deno
    }

    ghost function Rest(n: nat): nat
      requires Ok()
    {
      (n * nume) % deno
    }
  }

  lemma ScaleBound(e: int, d: nat)
    ensures e >= 1 ==> e * d >= d
    ensures e <= -1 ==> e * d <= -(d as int)
  {
    assert e >= 1 ==> (e - 1) * d >= 0;
    assert e <= -1 ==> (e + 1) * d <= 0;
  }

  lemma DivUnique(x: nat, d: nat, q: int, r: int)
    requires 0 < d && x == q * d + r && 0 <= r < d
    ensures x / d == q && x % d == r
  {
    var e := x / d - q;
    assert x == (x / d) * d + x % d;
    assert e * d == r - x % d;
    ScaleBound(e, d);
  }

  /** One tick adds the period to the pair of whole milliseconds and rest. */
  lemma StepTick(p: Period, n: nat)
    requires p.Ok()
    ensures p.Floor(n) * p.deno + p.Rest(n) == n * p.nume
    ensures var r := p.Rest(n) + p.nume % p.deno;
            && p.Floor(n + 1) == p.Floor(n) + p.nume / p.deno + (if r >= p.deno then 1 else 0)
            && p.Rest(n + 1) == (if r >= p.deno then r - p.deno else r)
  {
    var x, d := n * p.nume, p.deno;
    assert x == (x / d) * d + x % d;
    assert p.nume == (p.nume / d) * d + p.nume % d;
    assert (n + 1) * p.nume == x + p.nume;
    var r := x % d + p.nume % d;
    var q := x / d + p.nume / d;
    assert q * d == (x / d) * d + (p.nume / d) * d;
    if r >= d {
      assert (q + 1) * d == q * d + d;
      DivUnique(x + p.nume, d, q + 1, r - d);
    } else {
      DivUnique(x + p.nume, d, q, r);
    }
  }

  /** Division rounding up adds one exactly when there is a remainder. */
  lemma RoundUp(x: nat, d: nat)
    requires 0 < d
    ensures (x + d - 1) / d == x / d + (if x % d > 0 then 1 else 0)
  {
    var f, r := x / d, x % d;
    assert x == f * d + r;
    if r > 0 {
      assert (f + 1) * d == f * d + d;
      DivUnique(x + d - 1, d, f + 1, r - 1);
    } else {
      DivUnique(x + d - 1, d, f, d - 1);
    }
  }

  lemma RoundUpBounds(x: nat, d: nat)
    requires 0 < d
    ensures x <= (x + d - 1) / d * d < x + d
  {
    var y := x + d - 1;
    assert y == y / d * d + y % d;
  }

  lemma ScaleUp(a: int, b: int, d: nat)
    requires a <= b
    ensures a * d <= b * d
  {
    assert (b - a) * d >= 0;
    assert (b - a) * d == b * d - a * d;
  }

  /** `Ceil` rounds up exactly when there is a rest, and always lies after the tick before. */
  lemma CeilTick(p: Period, n: nat)
    requires p.Ok()
    ensures p.Ceil(n) == p.Floor(n) + (if p.Rest(n) > 0 then 1 else 0)
    ensures n * p.nume <= p.Ceil(n) * p.deno < n * p.nume + p.deno
    ensures p.Floor(n) < p.Ceil(n + 1)
  {
    RoundUp(n * p.nume, p.deno);
    RoundUpBounds(n * p.nume, p.deno);
    FloorBelowCeil(p, n);
  }

  lemma FloorBelowCeil(p: Period, n: nat)
    requires p.Ok()
    ensures p.Floor(n) < p.Ceil(n + 1)
  {
    var x, y := n * p.nume, (n + 1) * p.nume;
    assert y == x + p.nume;
    assert x / p.deno * p.deno <= x by { assert x == x / p.deno * p.deno + x % p.deno; }
    RoundUpBounds(y, p.deno);
    if p.Ceil(n + 1) <= p.Floor(n) {
      ScaleUp(p.Ceil(n + 1), p.Floor(n), p.deno);
    }
  }

  /** System time grows by at most one period, rounded up. */
  lemma FloorStep(p: Period, n: nat)
    requires p.Ok()
    ensures p.Floor(n) <= p.Floor(n + 1) <= p.Floor(n) + 0x3fff_ffff
  {
    StepTick(p, n);
  }

  // ----- The event manager --------------------------------------------------

  class TimeEvents {
    const period: Period
    const heap: array<Tmevtn>

    var lastIndex: nat
    var currentTime: Word
    var minTime: Word
    var nextTime: Word
    var nextSubtime: nat
    var blk: map<Blk, Tmevtb>

    ghost var ev: map<Blk, int>  // registered blocks and their unbounded event times
    ghost var n: nat             // ticks supplied so far
    ghost var min: int           // the unbounded time behind `minTime`

    ghost function Cur(): int
      reads `n
      requires period.Ok()
    {
      period.Floor(n)
    }

    ghost function Next(): int
      reads `n
      requires period.Ok()
    {
      period.Floor(n + 1)
    }

    /** The unbounded time from which relative times are counted. */
    ghost function Base(): int
      reads `n
      requires period.Ok()
    {
      period.Ceil(n + 1)
    }

    ghost predicate ClockOk()
      reads `currentTime, `minTime, `nextTime, `nextSubtime, `n, `min
    {
      && period.Ok()
      && currentTime == ToWord(Cur())
      && nextTime == ToWord(Next())
      && nextSubtime == period.Rest(n + 1)
      && minTime == ToWord(min)
      && 0 <= min <= Cur() <= min + 0x3fff_ffff
    }

    ghost predicate Valid()
      reads this, heap
    {
      && ClockOk()
      && lastIndex == |ev|
      && Linked(heap[..], blk, ev, lastIndex, 0)
      && Ordered(heap[..], ev, lastIndex, 0)
      && AllInWindow(ev, min)
      && |blk| == heap.Length
    }

    constructor (blocks: set<Blk>, p: Period)
      requires p.Ok()
      ensures Valid() && fresh(heap)
      ensures period == p && ev == map[] && n == 0 && min == 0 && blk.Keys == blocks
    {
      period := p;
      heap := new Tmevtn[|blocks|](_ => Tmevtn(0, Tsk(0)));
      currentTime := 0;
      minTime := 0;
      nextTime := (p.nume / p.deno) % WORD;
      nextSubtime := p.nume % p.deno;
      lastIndex := 0;
      var table := map b | b in blocks :: Tmevtb(0, WaitTmout);
      blk := table;
      ev, n, min := map[], 0, 0;
      new;
      StepTick(p, 0);
      assert table.Keys == blocks;
    }

    /** A registered time can be compared with any other time of the window. */
    lemma CompareNode(i: nat, t: int, e: map<Blk, int>, hole: nat)
      requires ClockOk() && Linked(heap[..], blk, e, lastIndex, hole) && AllInWindow(e, min)
      requires 1 <= i <= lastIndex && i != hole && InWindow(t, min)
      ensures var h := Node(heap[..], i);
              && h.blk in blk
              && (EvttimLe(h.time, ToWord(t), minTime) <==> Key(heap[..], e, i) <= t)
              && (EvttimLe(ToWord(t), h.time, minTime) <==> t <= Key(heap[..], e, i))
              && (EvttimLt(ToWord(t), h.time, minTime) <==> t < Key(heap[..], e, i))
    {
      var h := Node(heap[..], i);
      CompareAcrossWrap(e[h.blk], t, min);
      CompareAcrossWrap(t, e[h.blk], min);
    }

    lemma CompareNodes(i: nat, j: nat, e: map<Blk, int>, hole: nat)
      requires ClockOk() && Linked(heap[..], blk, e, lastIndex, hole) && AllInWindow(e, min)
      requires 1 <= i <= lastIndex && i != hole && 1 <= j <= lastIndex && j != hole
      ensures EvttimLt(Node(heap[..], i).time, Node(heap[..], j).time, minTime)
              <==> Key(heap[..], e, i) < Key(heap[..], e, j)
    {
      CompareAcrossWrap(e[Node(heap[..], i).blk], e[Node(heap[..], j).blk], min);
    }

    /** Copies node `src` into the empty node `dst` and tells its block. */
    method Shift(src: nat, dst: nat)
      requires 1 <= src <= heap.Length && 1 <= dst <= heap.Length
      requires Node(heap[..], src).blk in blk
      modifies heap, this`blk
      ensures heap[..] == MoveNode(old(heap[..]), src, dst)
      ensures blk == SetIndex(old(blk), Node(old(heap[..]), src).blk, dst)
    {
      heap[dst - 1] := heap[src - 1];
      var b := heap[dst - 1].blk;
      blk := blk[b := blk[b].(index := dst)];
    }

    /** Moves the empty node up to where time `t` belongs. */
    method TmevtUp(index0: nat, time: Word, ghost t: int, ghost e: map<Blk, int>) returns (index: nat)
      requires ClockOk() && AllInWindow(e, min) && InWindow(t, min) && time == ToWord(t)
      requires Hollow(heap[..], blk, e, lastIndex, index0) && BelowHole(heap[..], e, lastIndex, index0, t)
      requires 1 <= index0 <= lastIndex <= heap.Length
      modifies heap, this`blk
      ensures Hollow(heap[..], blk, e, lastIndex, index)
      ensures BelowHole(heap[..], e, lastIndex, index, t) && AboveHole(heap[..], e, index, t)
      ensures 1 <= index <= lastIndex
      ensures heap[lastIndex..] == old(heap[lastIndex..])
      ensures blk.Keys == old(blk.Keys)
      ensures forall b :: b in blk ==> blk[b].callback == old(blk)[b].callback
    {
      hide Linked, Ordered, Bridged, BelowHole, AllInWindow, InWindow, ClockOk, EvttimLe, EvttimLt;
      index := index0;
      while index > 1
        invariant 1 <= index <= lastIndex
        invariant Hollow(heap[..], blk, e, lastIndex, index) && BelowHole(heap[..], e, lastIndex, index, t)
        invariant heap[lastIndex..] == old(heap[lastIndex..])
        invariant blk.Keys == old(blk.Keys)
        invariant forall b :: b in blk ==> blk[b].callback == old(blk)[b].callback
      {
        var parent := index / 2;
        assert IsChild(parent, index);
        CompareNode(parent, t, e, index);
        if EvttimLe(heap[parent - 1].time, time, minTime) {
          break;
        }
        MoveUp(heap[..], blk, e, lastIndex, index, parent, t);
        Shift(parent, index);
        index := parent;
      }
    }

    /** Where the search downwards may stop. */
    lemma StopDown(e: map<Blk, int>, index: nat, child: nat, t: int)
      requires child == 2 * index || (child == 2 * index + 1 <= lastIndex)
      requires child <= lastIndex ==> t <= Key(heap[..], e, child)
      requires child <= lastIndex && 2 * index + 1 <= lastIndex ==>
                 Key(heap[..], e, child) <= Key(heap[..], e, 2 * index)
                 && Key(heap[..], e, child) <= Key(heap[..], e, 2 * index + 1)
      ensures BelowHole(heap[..], e, lastIndex, index, t)
    {
    }

    /** Moves the empty node down to where time `t` belongs. */
    method TmevtDown(index0: nat, time: Word, ghost t: int, ghost e: map<Blk, int>) returns (index: nat)
      requires ClockOk() && AllInWindow(e, min) && InWindow(t, min) && time == ToWord(t)
      requires Hollow(heap[..], blk, e, lastIndex, index0) && AboveHole(heap[..], e, index0, t)
      requires 1 <= index0 && lastIndex <= heap.Length
      modifies heap, this`blk
      ensures Hollow(heap[..], blk, e, lastIndex, index)
      ensures BelowHole(heap[..], e, lastIndex, index, t) && AboveHole(heap[..], e, index, t)
      ensures 1 <= index
      ensures index0 <= lastIndex ==> index <= lastIndex
      ensures lastIndex < index0 ==> index == index0 && heap[..] == old(heap[..]) && blk == old(blk)
      ensures heap[lastIndex..] == old(heap[lastIndex..])
      ensures blk.Keys == old(blk.Keys)
      ensures forall b :: b in blk ==> blk[b].callback == old(blk)[b].callback
    {
      hide Linked, Ordered, Bridged, BelowHole, AboveHole, AllInWindow, InWindow, ClockOk, EvttimLe, EvttimLt;
      index := index0;
      while 2 * index <= lastIndex
        invariant 1 <= index
        invariant index0 <= lastIndex ==> index <= lastIndex
        invariant lastIndex < index0 ==> index == index0 && heap[..] == old(heap[..]) && blk == old(blk)
        invariant Hollow(heap[..], blk, e, lastIndex, index) && AboveHole(heap[..], e, index, t)
        invariant heap[lastIndex..] == old(heap[lastIndex..])
        invariant blk.Keys == old(blk.Keys)
        invariant forall b :: b in blk ==> blk[b].callback == old(blk)[b].callback
        decreases lastIndex - index
      {
        var child := 2 * index;
        if child + 1 <= lastIndex {
          CompareNodes(child + 1, child, e, index);
        }
        if child + 1 <= lastIndex && EvttimLt(heap[child].time, heap[child - 1].time, minTime) {
          child := child + 1;
        }
        assert index < child <= lastIndex;
        CompareNode(child, t, e, index);
        if EvttimLe(time, heap[child - 1].time, minTime) {
          StopDown(e, index, child, t);
          break;
        }
        MoveDown(heap[..], blk, e, lastIndex, index, child, t);
        Shift(child, index);
        index := child;
      }
      if lastIndex < 2 * index {
        StopDown(e, index, 2 * index, t);
      }
    }

    /** tmevtb_insert: registers block `b` for time `t`. */
    method Insert(b: Blk, time: Word, ghost t: int)
      requires Valid() && b in blk && b !in ev
      requires InWindow(t, min) && time == ToWord(t)
      modifies heap, this`lastIndex, this`blk, this`ev
      ensures Valid() && ev == old(ev)[b := t]
      ensures SameCallbacks(old(blk))
    {
      hide Linked, Ordered, Bridged, BelowHole, AboveHole, Hollow, ToWord, InWindow, AllInWindow, ClockOk;
      RoomFor(b);
      lastIndex := lastIndex + 1;
      ExtendHeap(heap[..], blk, ev, lastIndex - 1, t);
      var index := TmevtUp(lastIndex, time, t, ev);
      ghost var h := heap[..];
      FillHole(h, blk, ev, lastIndex, index, b, t);
      StillInWindow(ev, min, b, t);
      heap[index - 1] := Tmevtn(time, b);
      blk := blk[b := blk[b].(index := index)];
      ev := ev[b := t];
      assert heap[..] == h[index - 1 := Tmevtn(time, b)];
    }

    ghost predicate SameCallbacks(blk0: map<Blk, Tmevtb>)
      reads `blk
    {
      && blk.Keys == blk0.Keys
      && forall b :: b in blk ==> blk[b].callback == blk0[b].callback
    }

    lemma StillInWindow(e: map<Blk, int>, m: int, b: Blk, t: int)
      requires AllInWindow(e, m) && InWindow(t, m)
      ensures AllInWindow(e[b := t], m)
    {
    }

    lemma RoomFor(b: Blk)
      requires Valid() && b in blk && b !in ev
      ensures lastIndex < heap.Length
    {
      assert ev.Keys + {b} <= blk.Keys;
      SubsetCard(ev.Keys + {b}, blk.Keys);
      assert |ev.Keys + {b}| == |ev| + 1;
    }

    /** The search of tmevtb_delete: node `index0`, which held `b`, is empty, and the
        last block `l` is to be put where its time belongs. */
    method FindPlace(index0: nat, eventTime: Word, ghost b: Blk, ghost l: Blk, ghost e: map<Blk, int>)
      returns (index: nat)
      requires ClockOk() && AllInWindow(e, min)
      requires b in ev && l in ev && e == ev - {b} - {l} && InWindow(ev[l], min) && eventTime == ToWord(ev[l])
      requires lastIndex < heap.Length && Linked(heap[..], blk, ev, lastIndex + 1, 0)
      requires Ordered(heap[..], ev, lastIndex + 1, 0)
      requires index0 == blk[b].index && l == Node(heap[..], lastIndex + 1).blk
      modifies heap, this`blk
      ensures Hollow(heap[..], blk, e, lastIndex, index)
      ensures BelowHole(heap[..], e, lastIndex, index, ev[l]) && AboveHole(heap[..], e, index, ev[l])
      ensures if l == b then index == lastIndex + 1 else 1 <= index <= lastIndex
      ensures heap[lastIndex] == old(heap[lastIndex])
      ensures SameCallbacks(old(blk))
    {
      hide Linked, Ordered, Bridged, BelowHole, AboveHole, Hollow, AllInWindow, InWindow;
      hide EvttimLe, EvttimLt, Key, IsChild, ToWord;
      FirstAndLast(heap[..], blk, ev, lastIndex + 1, b);
      PrepareDelete(heap[..], blk, ev, lastIndex + 1, b);
      index := index0;
      ghost var last0 := heap[lastIndex..];
      if index > 1 {
        HollowNode(heap[..], blk, e, lastIndex, index, index / 2);
        CompareNode(index / 2, ev[l], e, index);
      }
      if index > 1 && EvttimLt(eventTime, heap[index / 2 - 1].time, minTime) {
        var parent := index / 2;
        StartUp(heap[..], blk, ev, lastIndex + 1, b);
        Shift(parent, index);
        assert heap[lastIndex..] == last0;
        index := TmevtUp(parent, eventTime, ev[l], e);
      } else {
        StartDown(heap[..], e, index, ev[l]);
        index := TmevtDown(index, eventTime, ev[l], e);
      }
      assert heap[lastIndex] == heap[lastIndex..][0] == last0[0];
    }

    /** The end of tmevtb_delete and tmevtb_delete_top: the last block `l` moves into the
        empty node `index`. */
    method PutLast(index: nat, l: Blk, ghost b: Blk)
      requires ClockOk() && |blk| == heap.Length && lastIndex < heap.Length && lastIndex + 1 == |ev|
      requires b in ev && l in ev && l in blk && AllInWindow(ev - {b}, min)
      requires var e := ev - {b} - {l};
               && Hollow(heap[..], blk, e, lastIndex, index)
               && BelowHole(heap[..], e, lastIndex, index, ev[l]) && AboveHole(heap[..], e, index, ev[l])
      requires heap[lastIndex] == Tmevtn(ToWord(ev[l]), l)
      requires if l == b then index == lastIndex + 1 else 1 <= index <= lastIndex
      modifies heap, this`blk, this`ev
      ensures Valid() && ev == old(ev) - {b} && SameCallbacks(old(blk))
    {
      hide Linked, Ordered, Bridged, BelowHole, AboveHole, Hollow, AllInWindow, InWindow, ToWord, ClockOk;
      ghost var h, e := heap[..], ev - {b} - {l};
      RemoveCard(ev, b);
      FinishDelete(h, blk, ev, lastIndex, index, b, l, ev[l], e);
      heap[index - 1] := heap[lastIndex];
      blk := blk[l := blk[l].(index := index)];
      ev := ev - {b};
      assert heap[..] == h[index - 1 := Node(h, lastIndex + 1)];
    }

    /** tmevtb_delete: takes the registered block `b` out, wherever it is in the heap. */
    method Delete(b: Blk)
      requires Valid() && b in ev
      modifies heap, this`lastIndex, this`blk, this`ev
      ensures Valid() && ev == old(ev) - {b}
      ensures SameCallbacks(old(blk))
    {
      hide Linked, Ordered, Bridged, BelowHole, AboveHole, Hollow, AllInWindow, InWindow, ToWord;
      FirstAndLast(heap[..], blk, ev, lastIndex, b);
      var index := blk[b].index;
      var eventTime := heap[lastIndex - 1].time;
      var l := heap[lastIndex - 1].blk;
      ghost var e := ev - {b} - {l};
      WithoutInWindow(ev, b, l, min);
      RemoveCard(ev, b);
      lastIndex := lastIndex - 1;
      if lastIndex == 0 {
        EmptyHeap(heap[..], blk, ev - {b});
        ev := ev - {b};
        return;
      }
      index := FindPlace(index, eventTime, b, l, e);
      PutLast(index, l, b);
    }

    /** tmevtb_delete_top: takes the earliest block out. */
    method DeleteTop()
      requires Valid() && 1 <= lastIndex
      modifies heap, this`lastIndex, this`blk, this`ev
      ensures Valid()
      ensures var b := Node(old(heap[..]), 1).blk;
              && ev == old(ev) - {b} && b in old(ev)
              && (forall c :: c in old(ev) ==> old(ev)[b] <= old(ev)[c])
      ensures SameCallbacks(old(blk))
    {
      hide Linked, Ordered, Bridged, BelowHole, AboveHole, Hollow, AllInWindow, InWindow, ToWord;
      TopBlock(heap[..], blk, ev, lastIndex);
      ghost var b := heap[0].blk;
      FirstAndLast(heap[..], blk, ev, lastIndex, b);
      var eventTime := heap[lastIndex - 1].time;
      var l := heap[lastIndex - 1].blk;
      ghost var e := ev - {b} - {l};
      WithoutInWindow(ev, b, l, min);
      RemoveCard(ev, b);
      PrepareDelete(heap[..], blk, ev, lastIndex, b);
      lastIndex := lastIndex - 1;
      if lastIndex == 0 {
        EmptyHeap(heap[..], blk, ev - {b});
        ev := ev - {b};
        return;
      }
      StartDown(heap[..], e, 1, ev[l]);
      ghost var last0 := heap[lastIndex..];
      var index := TmevtDown(1, eventTime, ev[l], e);
      assert heap[lastIndex] == heap[lastIndex..][0] == last0[0];
      PutLast(index, l, b);
    }

    /** base_time: the next tick, rounded up to a whole millisecond. */
    function BaseTime(): (w: Word)
      reads this
      requires period.Ok() && nextTime == ToWord(Next()) && nextSubtime == period.Rest(n + 1)
      ensures w == ToWord(Base())
    {
      CeilTick(period, n + 1);
      AddToWord(Next(), 1);
      if nextSubtime > 0 then ToWord(nextTime + 1) else nextTime
    }

    lemma BaseInWindow()
      requires ClockOk()
      ensures Cur() < Base() && Cur() <= Next() <= Base() <= Next() + 1 <= min + 0x7fff_ffff
    {
      CeilTick(period, n);
      CeilTick(period, n + 1);
      FloorStep(period, n);
    }

    /** tmevtb_enqueue: registers `b` for `rel` milliseconds from now. */
    method Enqueue(b: Blk, rel: nat, cb: Cback)
      requires Valid() && b in blk && b !in ev && rel <= TMAX_RELTIM
      modifies heap, this`lastIndex, this`blk, this`ev
      ensures Valid() && ev == old(ev)[b := Base() + rel]
      ensures blk.Keys == old(blk.Keys) && blk[b].callback == cb
      ensures forall c :: c in blk && c != b ==> blk[c].callback == old(blk)[c].callback
    {
      hide Linked, Ordered, AllInWindow, ToWord, Period.Floor, Period.Ceil, Period.Rest;
      BaseInWindow();
      AddToWord(Base(), rel);
      EnqueueEvttim(b, ToWord(BaseTime() + rel), Base() + rel, cb);
    }

    /** tmevtb_enqueue_evttim: registers `b` for the event time `time`. */
    method EnqueueEvttim(b: Blk, time: Word, ghost t: int, cb: Cback)
      requires Valid() && b in blk && b !in ev && InWindow(t, min) && time == ToWord(t)
      modifies heap, this`lastIndex, this`blk, this`ev
      ensures Valid() && ev == old(ev)[b := t]
      ensures blk.Keys == old(blk.Keys) && blk[b].callback == cb
      ensures forall c :: c in blk && c != b ==> blk[c].callback == old(blk)[c].callback
    {
      hide Ordered, InWindow;
      blk := blk[b := blk[b].(callback := cb)];
      Insert(b, time, t);
    }

    /** tmevt_lefttim: the milliseconds left until the event of `b`. */
    method LeftTime(b: Blk) returns (r: Word)
      requires Valid() && b in ev
      ensures r == if ev[b] <= Base() then 0 else ev[b] - Base()
    {
      FirstAndLast(heap[..], blk, ev, lastIndex, b);
      BaseInWindow();
      var time := heap[blk[b].index - 1].time;
      assert time == Node(heap[..], blk[b].index).time == ToWord(ev[b]);
      CompareAcrossWrap(ev[b], Next(), min);
      if EvttimLe(time, nextTime, minTime) {
        return 0;
      }
      WindowOffset(ev[b], Base());
      return (time - BaseTime()) % WORD;
    }

    /** The first part of signal_time: takes the clock one tick on. */
    method BeginTick()
      requires Valid() && min == Cur()
      modifies `currentTime, `nextTime, `nextSubtime, `n
      ensures Valid() && n == old(n) + 1
    {
      hide Linked, Ordered, AllInWindow, ToWord, Period.Floor, Period.Rest;
      StepTick(period, n + 1);
      FloorStep(period, n);
      ghost var q := period.nume / period.deno;
      AddToWord(Next(), q);
      AddToWord(Next() + q, 1);
      currentTime := nextTime;
      nextSubtime := nextSubtime + period.nume % period.deno;
      nextTime := ToWord(currentTime + period.nume / period.deno);
      if nextSubtime >= period.deno {
        nextSubtime := nextSubtime - period.deno;
        nextTime := ToWord(nextTime + 1);
      }
      n := n + 1;
    }

    /** The loop condition of signal_time: the earliest event, if any, is due. */
    method TopDue() returns (due: bool)
      requires Valid()
      ensures due ==> lastIndex > 0 && Node(heap[..], 1).blk in ev && ev[Node(heap[..], 1).blk] <= Cur()
      ensures !due ==> forall b :: b in ev ==> Cur() < ev[b]
      ensures due ==> forall b :: b in ev ==> ev[Node(heap[..], 1).blk] <= ev[b]
    {
      if lastIndex == 0 {
        return false;
      }
      TopBlock(heap[..], blk, ev, lastIndex);
      CompareNode(1, Cur(), ev, 0);
      due := EvttimLe(heap[0].time, currentTime, minTime);
    }

    /** The last part of signal_time: no event before `currentTime` is left, so the
        reference point of all comparisons moves there. */
    method EndTick()
      requires Valid() && forall b :: b in ev ==> Cur() < ev[b]
      modifies `minTime, `min
      ensures Valid() && min == Cur()
      ensures forall b :: b in ev ==> min < ev[b]
    {
      minTime := currentTime;
      min := Cur();
    }
  }

  // ----- Proof steps of the deletions ---------------------------------------

  lemma ExtendHeap(h: seq<Tmevtn>, blk: map<Blk, Tmevtb>, ev: map<Blk, int>, last: int, t: int)
    requires Linked(h, blk, ev, last, 0) && Ordered(h, ev, last, 0) && last < |h|
    ensures Hollow(h, blk, ev, last + 1, last + 1)
    ensures BelowHole(h, ev, last + 1, last + 1, t)
  {
  }

  lemma FirstAndLast(h: seq<Tmevtn>, blk: map<Blk, Tmevtb>, ev: map<Blk, int>, last: int, b: Blk)
    requires Linked(h, blk, ev, last, 0) && b in ev
    ensures 1 <= last <= |h| && b in blk && 1 <= blk[b].index <= last
    ensures Node(h, blk[b].index).blk == b
    ensures var l := Node(h, last);
            l.blk in ev && l.blk in blk && blk[l.blk].index == last && l.time == ToWord(ev[l.blk])
  {
  }

  /** With `b` and the last block left out, node `b` is empty and the last node is gone. */
  lemma PrepareDelete(h: seq<Tmevtn>, blk: map<Blk, Tmevtb>, ev: map<Blk, int>, last: int, b: Blk)
    requires Linked(h, blk, ev, last, 0) && Ordered(h, ev, last, 0) && b in ev
    ensures var i := blk[b].index;
            var l := Node(h, last).blk;
            && Hollow(h, blk, ev - {b} - {l}, last - 1, i)
            && (forall j :: 1 <= j < last && j != i ==> Key(h, ev - {b} - {l}, j) == Key(h, ev, j))
  {
    var i := blk[b].index;
    var l := Node(h, last).blk;
    OpenHole(h, blk, ev, last, i);
    DropLast(h, blk, ev - {b}, last, i);
    if i == last {
      assert ev - {b} - {l} == ev - {b};
    }
  }

  lemma WithoutInWindow(ev: map<Blk, int>, b: Blk, l: Blk, min: int)
    requires AllInWindow(ev, min) && b in ev && l in ev
    ensures AllInWindow(ev - {b} - {l}, min) && AllInWindow(ev - {b}, min) && InWindow(ev[l], min)
  {
  }

  lemma EmptyHeap(h: seq<Tmevtn>, blk: map<Blk, Tmevtb>, ev: map<Blk, int>)
    requires |ev| == 0
    ensures Linked(h, blk, ev, 0, 0) && Ordered(h, ev, 0, 0)
  {
  }

  lemma StartUp(h: seq<Tmevtn>, blk: map<Blk, Tmevtb>, ev: map<Blk, int>, last: int, b: Blk)
    requires Linked(h, blk, ev, last, 0) && Ordered(h, ev, last, 0) && b in ev
    requires var i := blk[b].index;
             var l := Node(h, last).blk;
             i > 1 && ev[l] < Key(h, ev - {b} - {l}, i / 2)
    ensures var i := blk[b].index;
            var l := Node(h, last).blk;
            var e := ev - {b} - {l};
            && l != b && i <= last - 1
            && Node(h, i / 2).blk in blk
            && Hollow(MoveNode(h, i / 2, i), SetIndex(blk, Node(h, i / 2).blk, i), e, last - 1, i / 2)
            && BelowHole(MoveNode(h, i / 2, i), e, last - 1, i / 2, ev[l])
  {
    var i := blk[b].index;
    var l := Node(h, last).blk;
    var e := ev - {b} - {l};
    PrepareDelete(h, blk, ev, last, b);
    assert IsChild(i / 2, i);
    assert Key(h, ev, i / 2) <= Key(h, ev, i);
    assert Key(h, e, i / 2) == Key(h, ev, i / 2);
    assert i != last;
    MoveUp(h, blk, e, last - 1, i, i / 2, ev[l]);
  }

  lemma StartDown(h: seq<Tmevtn>, e: map<Blk, int>, i: int, t: int)
    requires 1 <= i && (i == 1 || Key(h, e, i / 2) <= t)
    ensures AboveHole(h, e, i, t)
  {
  }

  lemma FinishDelete(h: seq<Tmevtn>, blk: map<Blk, Tmevtb>, ev: map<Blk, int>, last: int, index: int,
                     b: Blk, l: Blk, t: int, e: map<Blk, int>)
    requires b in ev && l in ev && l in blk && t == ev[l] && e == ev - {b} - {l}
    requires Hollow(h, blk, e, last, index) && BelowHole(h, e, last, index, t) && AboveHole(h, e, index, t)
    requires last < |h| && Node(h, last + 1) == Tmevtn(ToWord(t), l)
    requires if l == b then index == last + 1 else 1 <= index <= last
    ensures var h' := h[index - 1 := Node(h, last + 1)];
            && Linked(h', SetIndex(blk, l, index), ev - {b}, last, 0)
            && Ordered(h', ev - {b}, last, 0)
  {
    if l == b {
      assert ev - {b} == e;
      assert h[index - 1 := Node(h, last + 1)] == h;
    } else {
      FillHole(h, blk, e, last, index, l, t);
      assert e[l := t] == ev - {b};
    }
  }

  lemma HollowNode(h: seq<Tmevtn>, blk: map<Blk, Tmevtb>, e: map<Blk, int>, last: int, hole: int, i: int)
    requires Hollow(h, blk, e, last, hole)
    ensures Linked(h, blk, e, last, hole)
    ensures 1 <= i <= last && i != hole ==> last <= |h| && Node(h, i).blk in blk
  {
  }

  lemma TopBlock(h: seq<Tmevtn>, blk: map<Blk, Tmevtb>, ev: map<Blk, int>, last: int)
    requires Linked(h, blk, ev, last, 0) && Ordered(h, ev, last, 0) && 1 <= last
    ensures last <= |h|
    ensures var b := Node(h, 1).blk;
            && b in ev && b in blk && blk[b].index == 1
            && ev[b] == Key(h, ev, 1) && Node(h, 1).time == ToWord(ev[b])
            && (forall c :: c in ev ==> ev[b] <= ev[c])
  {
    forall c | c in ev
      ensures ev[Node(h, 1).blk] <= ev[c]
    {
      RootIsEarliest(h, ev, last, blk[c].index);
    }
  }
}
