/** Lists of tasks in precedence order: the abstract form of the ready queue and of
    the priority-ordered wait queues.  Smaller numbers are higher priorities, and
    tasks of equal priority keep the order in which they were put in. */
module OrderedList {

  predicate NoDup<T(==)>(q: seq<T>) {
    forall i, j :: 0 <= i < j < |q| ==> q[i] != q[j]
  }

  /** The priority of task `t`. */
  function Pri(pri: seq<nat>, t: nat): nat {
    if t < |pri| then pri[t] else 0
  }

  predicate Sorted(q: seq<nat>, pri: seq<nat>) {
    forall i, j :: 0 <= i < j < |q| ==> Pri(pri, q[i]) <= Pri(pri, q[j])
  }

  /** Takes `t` out of the list. */
  function Remove<T(==)>(q: seq<T>, t: T): (r: seq<T>)
    ensures t !in q ==> r == q
    ensures forall x :: x in r ==> x in q
    ensures forall x :: x in q && x != t ==> x in r
  {
    if q == [] then [] else if q[0] == t then q[1..] else [q[0]] + Remove(q[1..], t)
  }

  /** Puts `t` behind every task of the same or a higher priority. */
  function InsertLast(q: seq<nat>, pri: seq<nat>, t: nat): (r: seq<nat>)
    ensures forall x :: x in r <==> x == t || x in q
  {
    if q == [] || Pri(pri, t) < Pri(pri, q[0]) then [t] + q else [q[0]] + InsertLast(q[1..], pri, t)
  }

  /** Puts `t` in front of every task of the same or a lower priority. */
  function InsertFirst(q: seq<nat>, pri: seq<nat>, t: nat): (r: seq<nat>)
    ensures forall x :: x in r <==> x == t || x in q
  {
    if q == [] || Pri(pri, t) <= Pri(pri, q[0]) then [t] + q else [q[0]] + InsertFirst(q[1..], pri, t)
  }

  lemma {:induction false} RemoveSplit<T>(q: seq<T>, t: T) returns (i: nat)
    requires t in q
    ensures i < |q| && q[i] == t && t !in q[..i]
    ensures Remove(q, t) == q[..i] + q[i + 1..]
  {
    if q[0] == t {
      i := 0;
    } else {
      var k := RemoveSplit(q[1..], t);
      i := k + 1;
      assert q[..i] == [q[0]] + q[1..][..k];
      assert q[i + 1..] == q[1..][k + 1..];
    }
  }

  lemma RemoveNoDup<T>(q: seq<T>, t: T)
    requires NoDup(q)
    ensures NoDup(Remove(q, t)) && t !in Remove(q, t)
  {
    if t in q {
      var i := RemoveSplit(q, t);
      assert t !in q[i + 1..];
    }
  }

  lemma RemoveSorted(q: seq<nat>, pri: seq<nat>, t: nat)
    requires Sorted(q, pri)
    ensures Sorted(Remove(q, t), pri)
  {
    if t in q {
      var i := RemoveSplit(q, t);
    }
  }

  lemma {:induction false} InsertLastSplit(q: seq<nat>, pri: seq<nat>, t: nat) returns (i: nat)
    ensures i <= |q| && InsertLast(q, pri, t) == q[..i] + [t] + q[i..]
    ensures forall j :: 0 <= j < i ==> Pri(pri, q[j]) <= Pri(pri, t)
    ensures Sorted(q, pri) ==> forall j :: i <= j < |q| ==> Pri(pri, t) < Pri(pri, q[j])
  {
    if q == [] || Pri(pri, t) < Pri(pri, q[0]) {
      i := 0;
    } else {
      var k := InsertLastSplit(q[1..], pri, t);
      i := k + 1;
      assert q[..i] == [q[0]] + q[1..][..k];
      assert q[i..] == q[1..][k..];
    }
  }

  lemma {:induction false} InsertFirstSplit(q: seq<nat>, pri: seq<nat>, t: nat) returns (i: nat)
    ensures i <= |q| && InsertFirst(q, pri, t) == q[..i] + [t] + q[i..]
    ensures forall j :: 0 <= j < i ==> Pri(pri, q[j]) < Pri(pri, t)
    ensures Sorted(q, pri) ==> forall j :: i <= j < |q| ==> Pri(pri, t) <= Pri(pri, q[j])
  {
    if q == [] || Pri(pri, t) <= Pri(pri, q[0]) {
      i := 0;
    } else {
      var k := InsertFirstSplit(q[1..], pri, t);
      i := k + 1;
      assert q[..i] == [q[0]] + q[1..][..k];
      assert q[i..] == q[1..][k..];
    }
  }

  lemma InsertNoDup<T>(q: seq<T>, i: nat, t: T)
    requires NoDup(q) && t !in q && i <= |q|
    ensures NoDup(q[..i] + [t] + q[i..])
  {
  }

  /** Both insertions keep the list sorted and free of duplicates. */
  lemma InsertLastOk(q: seq<nat>, pri: seq<nat>, t: nat)
    requires NoDup(q) && Sorted(q, pri) && t !in q
    ensures NoDup(InsertLast(q, pri, t)) && Sorted(InsertLast(q, pri, t), pri)
  {
    var i := InsertLastSplit(q, pri, t);
    InsertNoDup(q, i, t);
  }

  lemma InsertFirstOk(q: seq<nat>, pri: seq<nat>, t: nat)
    requires NoDup(q) && Sorted(q, pri) && t !in q
    ensures NoDup(InsertFirst(q, pri, t)) && Sorted(InsertFirst(q, pri, t), pri)
  {
    var i := InsertFirstSplit(q, pri, t);
    InsertNoDup(q, i, t);
  }

  /** Where an insertion ends up does not depend on the priorities of other tasks' lists. */
  lemma {:induction false} InsertLastAt(a: seq<nat>, b: seq<nat>, pri: seq<nat>, t: nat)
    requires forall x :: x in a ==> Pri(pri, x) <= Pri(pri, t)
    requires b == [] || Pri(pri, t) < Pri(pri, b[0])
    ensures InsertLast(a + b, pri, t) == a + [t] + b
  {
    if a == [] {
      assert a + b == b;
    } else {
      assert (a + b)[1..] == a[1..] + b;
      InsertLastAt(a[1..], b, pri, t);
      assert a == [a[0]] + a[1..];
    }
  }

  lemma {:induction false} InsertFirstAt(a: seq<nat>, b: seq<nat>, pri: seq<nat>, t: nat)
    requires forall x :: x in a ==> Pri(pri, x) < Pri(pri, t)
    requires b == [] || Pri(pri, t) <= Pri(pri, b[0])
    ensures InsertFirst(a + b, pri, t) == a + [t] + b
  {
    if a == [] {
      assert a + b == b;
    } else {
      assert (a + b)[1..] == a[1..] + b;
      InsertFirstAt(a[1..], b, pri, t);
      assert a == [a[0]] + a[1..];
    }
  }

  lemma RemoveAt<T>(a: seq<T>, t: T, b: seq<T>)
    requires t !in a
    ensures Remove(a + [t] + b, t) == a + b
  {
    var q := a + [t] + b;
    assert q[|a|] == t && forall j :: |a| < j <= |q| ==> q[|a|] in q[..j];
    var i := RemoveSplit(q, t);
    assert forall j :: 0 <= j < |a| ==> q[j] == a[j];
    assert i == |a|;
    assert q[..|a|] == a && q[|a| + 1..] == b;
  }

  /** A list without some tasks. */
  function Without(q: seq<nat>, ts: seq<nat>): seq<nat>
    decreases |ts|
  {
    if ts == [] then q else Without(Remove(q, ts[0]), ts[1..])
  }

  // ----- The order among equals ---------------------------------------------

  /** The tasks of priority `p` in a list, in their order. */
  function Level(q: seq<nat>, pri: seq<nat>, p: nat): seq<nat> {
    if q == [] then [] else (if Pri(pri, q[0]) == p then [q[0]] else []) + Level(q[1..], pri, p)
  }

  /** In `q1` the tasks of `front` stand ahead of their equals in `q`, and those of `back`
      behind them, in this order.  For sorted lists this leaves no choice. */
  ghost predicate LinesUp(q: seq<nat>, q1: seq<nat>, pri: seq<nat>, front: seq<nat>, back: seq<nat>) {
    forall p: nat {:trigger Level(q1, pri, p)} ::
      Level(q1, pri, p) == Level(front, pri, p) + Level(q, pri, p) + Level(back, pri, p)
  }

  lemma {:induction false} LevelConcat(a: seq<nat>, b: seq<nat>, pri: seq<nat>, p: nat)
    ensures Level(a + b, pri, p) == Level(a, pri, p) + Level(b, pri, p)
  {
    if a == [] {
      assert a + b == b;
    } else {
      assert (a + b)[1..] == a[1..] + b;
      LevelConcat(a[1..], b, pri, p);
    }
  }

  lemma {:induction false} LevelMembers(q: seq<nat>, pri: seq<nat>, p: nat)
    ensures forall x :: x in Level(q, pri, p) <==> x in q && Pri(pri, x) == p
  {
    if q != [] {
      LevelMembers(q[1..], pri, p);
    }
  }

  lemma {:induction false} LevelAgree(q: seq<nat>, pri: seq<nat>, pri1: seq<nat>, p: nat)
    requires forall x :: x in q ==> Pri(pri1, x) == Pri(pri, x)
    ensures Level(q, pri1, p) == Level(q, pri, p)
  {
    if q != [] {
      assert q[0] in q && forall x :: x in q[1..] ==> x in q;
      LevelAgree(q[1..], pri, pri1, p);
    }
  }

  lemma NoLevel(q: seq<nat>, pri: seq<nat>, p: nat)
    requires forall x :: x in q ==> Pri(pri, x) != p
    ensures Level(q, pri, p) == []
  {
    hide Level;
    LevelMembers(q, pri, p);
    assert Level(q, pri, p) != [] ==> Level(q, pri, p)[0] in Level(q, pri, p);
  }

  lemma LevelOne(t: nat, pri: seq<nat>, p: nat)
    ensures Level([t], pri, p) == (if Pri(pri, t) == p then [t] else []) && Level([], pri, p) == []
  {
    assert [t][1..] == [];
  }

  lemma LinesUpLast(q: seq<nat>, pri: seq<nat>, t: nat)
    requires Sorted(q, pri)
    ensures LinesUp(q, InsertLast(q, pri, t), pri, [], [t])
  {
    hide Level, InsertLast;
    var i := InsertLastSplit(q, pri, t);
    assert q == q[..i] + q[i..];
    forall p: nat
      ensures Level(InsertLast(q, pri, t), pri, p) == Level([], pri, p) + Level(q, pri, p) + Level([t], pri, p)
    {
      LevelOne(t, pri, p);
      LevelConcat(q[..i], q[i..], pri, p);
      LevelConcat(q[..i] + [t], q[i..], pri, p);
      LevelConcat(q[..i], [t], pri, p);
      if Pri(pri, t) == p {
        NoLevel(q[i..], pri, p);
      }
    }
  }

  lemma LinesUpFirst(q: seq<nat>, pri: seq<nat>, t: nat)
    requires Sorted(q, pri)
    ensures LinesUp(q, InsertFirst(q, pri, t), pri, [t], [])
  {
    hide Level, InsertFirst;
    var i := InsertFirstSplit(q, pri, t);
    assert q == q[..i] + q[i..];
    forall p: nat
      ensures Level(InsertFirst(q, pri, t), pri, p) == Level([t], pri, p) + Level(q, pri, p) + Level([], pri, p)
    {
      LevelOne(t, pri, p);
      LevelConcat(q[..i], q[i..], pri, p);
      LevelConcat(q[..i] + [t], q[i..], pri, p);
      LevelConcat(q[..i], [t], pri, p);
      if Pri(pri, t) == p {
        NoLevel(q[..i], pri, p);
      }
    }
  }

  lemma LinesUpSame(q: seq<nat>, pri: seq<nat>)
    ensures LinesUp(q, q, pri, [], [])
  {
  }

  lemma {:induction false} LevelRemove(q: seq<nat>, pri: seq<nat>, t: nat, p: nat)
    ensures Level(Remove(q, t), pri, p) == if Pri(pri, t) == p then Remove(Level(q, pri, p), t) else Level(q, pri, p)
  {
    if q != [] {
      if q[0] != t {
        LevelRemove(q[1..], pri, t, p);
        assert ([q[0]] + Remove(q[1..], t))[1..] == Remove(q[1..], t);
        assert ([q[0]] + Level(q[1..], pri, p))[1..] == Level(q[1..], pri, p);
      } else {
        assert ([t] + Level(q[1..], pri, p))[1..] == Level(q[1..], pri, p);
      }
      assert [] + Level(q[1..], pri, p) == Level(q[1..], pri, p);
    }
  }

  /** Only the priorities of the tasks concerned matter. */
  lemma LinesUpAgree(q: seq<nat>, q1: seq<nat>, pri: seq<nat>, pri1: seq<nat>, front: seq<nat>, back: seq<nat>)
    requires LinesUp(q, q1, pri, front, back)
    requires forall x :: x in q || x in q1 || x in front || x in back ==> Pri(pri1, x) == Pri(pri, x)
    ensures LinesUp(q, q1, pri1, front, back)
  {
    hide Level;
    forall p: nat
      ensures Level(q1, pri1, p) == Level(front, pri1, p) + Level(q, pri1, p) + Level(back, pri1, p)
    {
      LevelAgree(q, pri, pri1, p);
      LevelAgree(q1, pri, pri1, p);
      LevelAgree(front, pri, pri1, p);
      LevelAgree(back, pri, pri1, p);
      assert Level(q1, pri, p) == Level(front, pri, p) + Level(q, pri, p) + Level(back, pri, p);
    }
  }

  /** First one group, then another. */
  lemma LinesUpThen(q: seq<nat>, q1: seq<nat>, q2: seq<nat>, pri: seq<nat>,
                    f: seq<nat>, a: seq<nat>, g: seq<nat>, b: seq<nat>)
    requires LinesUp(q, q1, pri, f, a) && LinesUp(q1, q2, pri, g, b)
    ensures LinesUp(q, q2, pri, g + f, a + b)
  {
    hide Level;
    forall p: nat
      ensures Level(q2, pri, p) == Level(g + f, pri, p) + Level(q, pri, p) + Level(a + b, pri, p)
    {
      LevelConcat(g, f, pri, p);
      LevelConcat(a, b, pri, p);
      assert Level(q1, pri, p) == Level(f, pri, p) + Level(q, pri, p) + Level(a, pri, p);
    }
  }

  /** A sorted list is determined by the order within each priority. */
  lemma {:induction false} LevelsDetermine(q: seq<nat>, q1: seq<nat>, pri: seq<nat>)
    requires Sorted(q, pri) && Sorted(q1, pri)
    requires forall p: nat :: Level(q1, pri, p) == Level(q, pri, p)
    ensures q1 == q
  {
    if q == [] || q1 == [] {
      SameHead(q, q1, pri);
    } else {
      SameHead(q, q1, pri);
      assert q == [q[0]] + q[1..] && q1 == [q1[0]] + q1[1..];
      forall p: nat
        ensures Level(q1[1..], pri, p) == Level(q[1..], pri, p)
      {
        assert Level(q1, pri, p) == Level(q, pri, p);
        LevelTail(q, pri, p);
        LevelTail(q1, pri, p);
      }
      LevelsDetermine(q[1..], q1[1..], pri);
    }
  }

  lemma LevelTail(q: seq<nat>, pri: seq<nat>, p: nat)
    requires q != []
    ensures Pri(pri, q[0]) == p ==> Level(q, pri, p) != []
    ensures Level(q[1..], pri, p) == if Pri(pri, q[0]) == p then Level(q, pri, p)[1..] else Level(q, pri, p)
  {
  }

  lemma SameHead(q: seq<nat>, q1: seq<nat>, pri: seq<nat>)
    requires Sorted(q, pri) && Sorted(q1, pri)
    requires forall p: nat :: Level(q1, pri, p) == Level(q, pri, p)
    ensures q == [] <==> q1 == []
    ensures q != [] ==> q1[0] == q[0]
  {
    hide Level;
    if q != [] {
      HeadOfLevel(q, pri);
      assert Level(q1, pri, Pri(pri, q[0])) == Level(q, pri, Pri(pri, q[0]));
      LevelMembers(q1, pri, Pri(pri, q[0]));
      assert Level(q, pri, Pri(pri, q[0]))[0] in Level(q1, pri, Pri(pri, q[0]));
    }
    if q1 != [] {
      HeadOfLevel(q1, pri);
      LevelMembers(q, pri, Pri(pri, q1[0]));
      assert Level(q1, pri, Pri(pri, q1[0])) == Level(q, pri, Pri(pri, q1[0]));
      assert Level(q1, pri, Pri(pri, q1[0]))[0] in Level(q, pri, Pri(pri, q1[0]));
    }
  }

  lemma HeadOfLevel(q: seq<nat>, pri: seq<nat>)
    requires q != []
    ensures Level(q, pri, Pri(pri, q[0])) != [] && Level(q, pri, Pri(pri, q[0]))[0] == q[0]
  {
  }
}
