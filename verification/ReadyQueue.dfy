/** The ready queues of kernel/task.c: one queue for each priority, and a bitmap of the
    queues that are not empty.  Read one after the other the queues are the precedence list. */
module ReadyQueue {
  import opened Basics
  import opened OrderedList
  import opened KernelSpec

  // ----- The queues as one list ---------------------------------------------

  function Flatten(rd: seq<seq<nat>>): seq<nat> {
    if rd == [] then [] else rd[0] + Flatten(rd[1..])
  }

  /** Each task is in the queue of its own priority, or in none. */
  ghost predicate Placed(rd: seq<seq<nat>>, pri: seq<nat>) {
    forall p, t {:trigger t in rd[p]} :: 0 <= p < |rd| && t in rd[p] ==> Pri(pri, t) == p
  }

  lemma {:induction false} FlattenSplit(rd: seq<seq<nat>>, p: nat)
    requires p < |rd|
    ensures Flatten(rd) == Flatten(rd[..p]) + rd[p] + Flatten(rd[p + 1..])
  {
    if p > 0 {
      FlattenSplit(rd[1..], p - 1);
      assert rd[1..][..p - 1] == rd[..p][1..];
      assert rd[1..][p..] == rd[p + 1..];
    }
  }

  lemma {:induction false} FlattenElem(rd: seq<seq<nat>>, t: nat)
    ensures t in Flatten(rd) <==> exists p :: 0 <= p < |rd| && t in rd[p]
  {
    hide Flatten;
    FlattenStep(rd);
    if rd != [] {
      FlattenElem(rd[1..], t);
      SomeQueue(rd, t);
    }
  }

  lemma FlattenStep(rd: seq<seq<nat>>)
    ensures Flatten(rd) == if rd == [] then [] else rd[0] + Flatten(rd[1..])
  {
  }

  lemma SomeQueue(rd: seq<seq<nat>>, t: nat)
    requires rd != []
    ensures (exists p :: 0 <= p < |rd| && t in rd[p]) <==> t in rd[0] || exists p :: 0 <= p < |rd[1..]| && t in rd[1..][p]
  {
    if p :| 0 <= p < |rd| && t in rd[p] {
      assert p > 0 ==> t in rd[1..][p - 1];
    }
    if p :| 0 <= p < |rd[1..]| && t in rd[1..][p] {
      assert t in rd[p + 1];
    }
  }

  /** What is in the queues before and behind queue `p`. */
  lemma Around(rd: seq<seq<nat>>, pri: seq<nat>, p: nat)
    requires Placed(rd, pri) && p < |rd|
    ensures forall x :: x in Flatten(rd[..p]) ==> Pri(pri, x) < p
    ensures forall x :: x in Flatten(rd[p + 1..]) ==> Pri(pri, x) > p
  {
    forall x | x in Flatten(rd[..p])
      ensures Pri(pri, x) < p
    {
      FlattenElem(rd[..p], x);
      var q :| 0 <= q < p && x in rd[..p][q];
      assert x in rd[q];
    }
    forall x | x in Flatten(rd[p + 1..])
      ensures Pri(pri, x) > p
    {
      FlattenElem(rd[p + 1..], x);
      var q :| 0 <= q < |rd| - p - 1 && x in rd[p + 1..][q];
      assert x in rd[p + 1 + q];
    }
  }

  lemma FlattenUpdate(rd: seq<seq<nat>>, p: nat, q: seq<nat>)
    requires p < |rd|
    ensures Flatten(rd[p := q]) == Flatten(rd[..p]) + q + Flatten(rd[p + 1..])
  {
    FlattenSplit(rd[p := q], p);
    assert rd[p := q][..p] == rd[..p];
    assert rd[p := q][p + 1..] == rd[p + 1..];
  }

  /** Joining the queue of one's priority at its end is joining the list behind one's equals. */
  lemma AppendIsInsertLast(rd: seq<seq<nat>>, pri: seq<nat>, t: nat)
    requires Placed(rd, pri) && Pri(pri, t) < |rd|
    ensures var p := Pri(pri, t);
            Flatten(rd[p := rd[p] + [t]]) == InsertLast(Flatten(rd), pri, t)
  {
    var p := Pri(pri, t);
    FlattenSplit(rd, p);
    FlattenUpdate(rd, p, rd[p] + [t]);
    Around(rd, pri, p);
    var a, b := Flatten(rd[..p]) + rd[p], Flatten(rd[p + 1..]);
    assert b != [] ==> b[0] in b;
    InsertLastAt(a, b, pri, t);
    assert a + [t] + b == Flatten(rd[..p]) + (rd[p] + [t]) + b;
  }

  lemma PrependIsInsertFirst(rd: seq<seq<nat>>, pri: seq<nat>, t: nat)
    requires Placed(rd, pri) && Pri(pri, t) < |rd|
    ensures var p := Pri(pri, t);
            Flatten(rd[p := [t] + rd[p]]) == InsertFirst(Flatten(rd), pri, t)
  {
    hide InsertFirst, Flatten;
    var p := Pri(pri, t);
    FlattenSplit(rd, p);
    FlattenUpdate(rd, p, [t] + rd[p]);
    Around(rd, pri, p);
    var a, b := Flatten(rd[..p]), rd[p] + Flatten(rd[p + 1..]);
    assert b != [] ==> b[0] in rd[p] || b[0] in Flatten(rd[p + 1..]);
    InsertFirstAt(a, b, pri, t);
    assert a + b == Flatten(rd) && a + [t] + b == a + ([t] + rd[p]) + Flatten(rd[p + 1..]);
  }

  lemma {:induction false} RemoveInner(a: seq<nat>, q: seq<nat>, b: seq<nat>, t: nat)
    requires t !in a && t in q
    ensures Remove(a + q + b, t) == a + Remove(q, t) + b
  {
    var i := RemoveSplit(q, t);
    assert a + q + b == (a + q[..i]) + [t] + (q[i + 1..] + b);
    RemoveAt(a + q[..i], t, q[i + 1..] + b);
    assert (a + q[..i]) + (q[i + 1..] + b) == a + (q[..i] + q[i + 1..]) + b;
  }

  lemma DeleteIsRemove(rd: seq<seq<nat>>, pri: seq<nat>, t: nat)
    requires Placed(rd, pri) && Pri(pri, t) < |rd| && t in rd[Pri(pri, t)]
    ensures var p := Pri(pri, t);
            Flatten(rd[p := Remove(rd[p], t)]) == Remove(Flatten(rd), t)
  {
    var p := Pri(pri, t);
    FlattenSplit(rd, p);
    FlattenUpdate(rd, p, Remove(rd[p], t));
    Around(rd, pri, p);
    RemoveInner(Flatten(rd[..p]), rd[p], Flatten(rd[p + 1..]), t);
  }

  /** The first task of a priority is the head of its queue. */
  lemma HeadIsFirstOf(rd: seq<seq<nat>>, pri: seq<nat>, p: nat)
    requires Placed(rd, pri) && p < |rd|
    ensures FirstOf(Flatten(rd), pri, p) == if rd[p] == [] then None else Some(rd[p][0])
  {
    FlattenSplit(rd, p);
    Around(rd, pri, p);
    var a, b := Flatten(rd[..p]), Flatten(rd[p + 1..]);
    assert Flatten(rd) == a + (rd[p] + b);
    FirstOfSkip(a, rd[p] + b, pri, p);
    if rd[p] == [] {
      assert rd[p] + b == b;
    } else {
      assert rd[p][0] in rd[p];
    }
  }

  lemma {:induction false} FirstOfSkip(a: seq<nat>, b: seq<nat>, pri: seq<nat>, p: nat)
    requires forall x :: x in a ==> Pri(pri, x) != p
    ensures FirstOf(a + b, pri, p) == FirstOf(b, pri, p)
  {
    if a == [] {
      assert a + b == b;
    } else {
      assert a[0] in a && (a + b)[1..] == a[1..] + b;
      FirstOfSkip(a[1..], b, pri, p);
    }
  }

  /** The task to run is the head of the first queue that is not empty. */
  lemma {:induction false} FirstQueue(rd: seq<seq<nat>>, p: nat)
    requires p < |rd| && rd[p] != [] && forall q :: 0 <= q < p ==> rd[q] == []
    ensures Flatten(rd) != [] && Flatten(rd)[0] == rd[p][0]
  {
    if p > 0 {
      assert rd[0] == [];
      FirstQueue(rd[1..], p - 1);
    }
  }

  lemma {:induction false} NoQueue(rd: seq<seq<nat>>)
    requires forall q :: 0 <= q < |rd| ==> rd[q] == []
    ensures Flatten(rd) == []
  {
    if rd != [] {
      NoQueue(rd[1..]);
    }
  }

  /** The head of the list is the head of its own queue, and no task is ahead of it. */
  lemma HeadOfList(rd: seq<seq<nat>>, pri: seq<nat>)
    requires Placed(rd, pri) && Flatten(rd) != []
    ensures var h := Flatten(rd)[0];
            var p := Pri(pri, h);
            && p < |rd| && rd[p] != [] && rd[p][0] == h
            && (forall q :: 0 <= q < p ==> rd[q] == [])
            && (forall x :: x in Flatten(rd) ==> p <= Pri(pri, x))
  {
    var h := Flatten(rd)[0];
    FlattenElem(rd, h);
    var p :| 0 <= p < |rd| && h in rd[p];
    FlattenSplit(rd, p);
    Around(rd, pri, p);
    assert Flatten(rd[..p]) == [];
    forall q | 0 <= q < p
      ensures rd[q] == []
    {
      if rd[q] != [] {
        assert rd[q][0] in rd[..p][q];
        FlattenElem(rd[..p], rd[q][0]);
      }
    }
    assert h == rd[p][0];
    forall x | x in Flatten(rd)
      ensures p <= Pri(pri, x)
    {
      assert x in rd[p] || x in Flatten(rd[p + 1..]);
    }
  }

  // ----- The bitmap ---------------------------------------------------------

  /** PRIMAP_BIT. */
  function PrimapBit(p: nat): bv16
    requires p < TNUM_TPRI
  {
    match p
    case 0 => 0x1 case 1 => 0x2 case 2 => 0x4 case 3 => 0x8
    case 4 => 0x10 case 5 => 0x20 case 6 => 0x40 case 7 => 0x80
    case 8 => 0x100 case 9 => 0x200 case 10 => 0x400 case 11 => 0x800
    case 12 => 0x1000 case 13 => 0x2000 case 14 => 0x4000 case _ => 0x8000
  }

  predicate Meets(m: bv16, b: bv16) {
    m & b != 0
  }

  function SetBits(m: bv16, b: bv16): bv16 {
    m | b
  }

  function ClearBits(m: bv16, b: bv16): bv16 {
    m & !b
  }

  predicate IsSet(m: bv16, p: nat)
    requires p < TNUM_TPRI
  {
    Meets(m, PrimapBit(p))
  }

  lemma SetBit(m: bv16, p: nat, q: nat)
    requires p < TNUM_TPRI && q < TNUM_TPRI
    ensures IsSet(SetBits(m, PrimapBit(p)), q) <==> p == q || IsSet(m, q)
  {
    hide PrimapBit, Meets, SetBits;
    OneBit(p, q);
    if p == q {
      OrSame(m, PrimapBit(p));
    } else {
      OrOther(m, PrimapBit(p), PrimapBit(q));
    }
  }

  lemma ClearBit(m: bv16, p: nat, q: nat)
    requires p < TNUM_TPRI && q < TNUM_TPRI
    ensures IsSet(ClearBits(m, PrimapBit(p)), q) <==> p != q && IsSet(m, q)
  {
    hide PrimapBit, Meets, ClearBits;
    OneBit(p, q);
    if p == q {
      AndSame(m, PrimapBit(p));
    } else {
      AndOther(m, PrimapBit(p), PrimapBit(q));
    }
  }

  lemma OneBit(p: nat, q: nat)
    requires p < TNUM_TPRI && q < TNUM_TPRI
    ensures PrimapBit(p) != 0 && (p != q ==> !Meets(PrimapBit(p), PrimapBit(q)))
  {
  }

  lemma OrSame(m: bv16, a: bv16)
    requires a != 0
    ensures Meets(SetBits(m, a), a)
  {
  }

  lemma OrOther(m: bv16, a: bv16, b: bv16)
    requires !Meets(a, b)
    ensures Meets(SetBits(m, a), b) <==> Meets(m, b)
  {
  }

  lemma AndSame(m: bv16, a: bv16)
    ensures !Meets(ClearBits(m, a), a)
  {
  }

  lemma AndOther(m: bv16, a: bv16, b: bv16)
    requires !Meets(a, b)
    ensures Meets(ClearBits(m, a), b) <==> Meets(m, b)
  {
  }

  /** A bitmap with no bit set is zero. */
  lemma SomeBit(m: bv16)
    ensures m == 0 <==> forall p :: 0 <= p < TNUM_TPRI ==> !IsSet(m, p)
  {
    if forall p :: 0 <= p < TNUM_TPRI ==> !IsSet(m, p) {
      assert !IsSet(m, 0) && !IsSet(m, 1) && !IsSet(m, 2) && !IsSet(m, 3);
      assert !IsSet(m, 4) && !IsSet(m, 5) && !IsSet(m, 6) && !IsSet(m, 7);
      assert !IsSet(m, 8) && !IsSet(m, 9) && !IsSet(m, 10) && !IsSet(m, 11);
      assert !IsSet(m, 12) && !IsSet(m, 13) && !IsSet(m, 14) && !IsSet(m, 15);
    }
  }

  const BITMAP_SEARCH_TABLE: seq<nat> := [0, 1, 0, 2, 0, 1, 0, 3, 0, 1, 0, 2, 0, 1, 0]

  /** bitmap_search: the number of the lowest bit that is set. */
  method BitmapSearch(bitmap: bv16) returns (n: nat)
    requires bitmap != 0
    ensures n < TNUM_TPRI && IsSet(bitmap, n) && forall q :: 0 <= q < n ==> !IsSet(bitmap, q)
  {
    var m := bitmap;
    n := 0;
    if m & 0x00ff == 0 {
      m := m >> 8;
      n := n + 8;
    }
    if m & 0x0f == 0 {
      m := m >> 4;
      n := n + 4;
    }
    n := n + BITMAP_SEARCH_TABLE[(m & 0x0f) as int - 1];
  }
}
