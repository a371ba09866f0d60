/** The wait queue of an object: who waits, in which order, and what the tasks keep in
    their wait-information blocks. */
module WaitQueue {
  import opened OrderedList

  // A waiting task, with what its wait-information block holds for the object.
  datatype Waiter<T> = Waiter(tsk: nat, info: T)

  function Infos<T>(q: seq<Waiter<T>>): seq<T> {
    seq(|q|, i requires 0 <= i < |q| => q[i].info)
  }

  function TskIds<T>(q: seq<Waiter<T>>): seq<nat> {
    seq(|q|, i requires 0 <= i < |q| => q[i].tsk)
  }

  /** Every task waits once, and a queue with TA_TPRI is sorted by current priority. */
  ghost predicate QueueOk(q: seq<nat>, tpri: bool, pri: seq<nat>) {
    NoDup(q) && (tpri ==> Sorted(q, pri))
  }

  /** The queue after task `t` has joined. */
  function Joined(q: seq<nat>, tpri: bool, pri: seq<nat>, t: nat): seq<nat> {
    if tpri then InsertLast(q, pri, t) else q + [t]
  }

  /** The queue after the priority of task `t` has changed. */
  function Moved(q: seq<nat>, tpri: bool, pri: seq<nat>, t: nat): seq<nat> {
    if tpri && t in q then InsertLast(Remove(q, t), pri, t) else q
  }

  /** queue_insert_tpri: in front of the first task of a lower priority. */
  method PlaceTpri(q: seq<nat>, pri: seq<nat>, t: nat) returns (i: nat)
    ensures i <= |q| && q[..i] + [t] + q[i..] == InsertLast(q, pri, t)
  {
    hide InsertLast;
    i := 0;
    while i < |q| && !(Pri(pri, t) < Pri(pri, q[i]))
      invariant 0 <= i <= |q|
      invariant forall k :: 0 <= k < i ==> Pri(pri, q[k]) <= Pri(pri, t)
    {
      i := i + 1;
    }
    assert q[..i] + q[i..] == q;
    InsertLastAt(q[..i], q[i..], pri, t);
  }

  /** wobj_queue_insert: by priority or at the end. */
  method PlaceOf(q: seq<nat>, tpri: bool, pri: seq<nat>, t: nat) returns (i: nat)
    ensures i <= |q| && q[..i] + [t] + q[i..] == Joined(q, tpri, pri, t)
    ensures !tpri ==> i == |q|
  {
    hide InsertLast;
    if tpri {
      i := PlaceTpri(q, pri, t);
    } else {
      i := |q|;
    }
  }

  /** Task `w.tsk` joins the queue. */
  method Join<T>(q: seq<Waiter<T>>, tpri: bool, pri: seq<nat>, w: Waiter<T>) returns (r: seq<Waiter<T>>)
    requires QueueOk(TskIds(q), tpri, pri) && w.tsk !in TskIds(q)
    ensures TskIds(r) == Joined(TskIds(q), tpri, pri, w.tsk) && QueueOk(TskIds(r), tpri, pri)
    ensures multiset(r) == multiset(q) + multiset{w} && multiset(Infos(r)) == multiset(Infos(q)) + multiset{w.info}
    ensures !tpri ==> r == q + [w]
  {
    hide Joined, QueueOk;
    var i := PlaceOf(TskIds(q), tpri, pri, w.tsk);
    JoinedOk(TskIds(q), tpri, pri, w.tsk);
    JoinsAt(q, w, i);
    r := q[..i] + [w] + q[i..];
  }

  /** wobj_change_priority, for the new priorities `pri`, in which only that of `t` differs. */
  method Move<T>(q: seq<Waiter<T>>, tpri: bool, pri: seq<nat>, t: nat, p: nat) returns (r: seq<Waiter<T>>)
    requires QueueOk(TskIds(q), tpri, pri) && t < |pri|
    ensures TskIds(r) == Moved(TskIds(q), tpri, pri[t := p], t) && QueueOk(TskIds(r), tpri, pri[t := p])
    ensures multiset(r) == multiset(q) && multiset(Infos(r)) == multiset(Infos(q))
    ensures !tpri || t !in TskIds(q) ==> r == q
  {
    hide QueueOk, Remove, InsertLast;
    MovedOk(TskIds(q), tpri, pri, t, p);
    if !tpri || t !in TskIds(q) {
      return q;
    }
    var j := 0;
    while q[j].tsk != t
      invariant 0 <= j < |q| && forall k :: 0 <= k < j ==> q[k].tsk != t
      decreases |q| - j
    {
      StillBehind(q, t, j);
      j := j + 1;
    }
    var rest := q[..j] + q[j + 1..];
    LeavesAt(q, j);
    RemoveAt(TskIds(q)[..j], t, TskIds(q)[j + 1..]);
    assert TskIds(q) == TskIds(q)[..j] + [t] + TskIds(q)[j + 1..];
    var i := PlaceTpri(TskIds(rest), pri[t := p], t);
    JoinsAt(rest, q[j], i);
    r := rest[..i] + [q[j]] + rest[i..];
  }

  lemma StillBehind<T>(q: seq<Waiter<T>>, t: nat, j: nat)
    requires j < |q| && t in TskIds(q) && forall k :: 0 <= k <= j ==> q[k].tsk != t
    ensures j + 1 < |q|
  {
    var i :| 0 <= i < |q| && TskIds(q)[i] == t;
  }

  lemma JoinedOk(q: seq<nat>, tpri: bool, pri: seq<nat>, t: nat)
    requires QueueOk(q, tpri, pri) && t !in q
    ensures QueueOk(Joined(q, tpri, pri, t), tpri, pri)
    ensures forall x :: x in Joined(q, tpri, pri, t) <==> x == t || x in q
  {
    if tpri {
      InsertLastOk(q, pri, t);
    }
  }

  /** A queue stays in order when the priority of a task changes and the task moves. */
  lemma MovedOk(q: seq<nat>, tpri: bool, pri: seq<nat>, t: nat, p: nat)
    requires QueueOk(q, tpri, pri) && t < |pri|
    ensures QueueOk(Moved(q, tpri, pri[t := p], t), tpri, pri[t := p])
  {
    hide InsertLast;
    if tpri {
      if t in q {
        RemoveNoDup(q, t);
        RemoveSorted(q, pri, t);
        OthersSorted(Remove(q, t), pri, t, p);
        InsertLastOk(Remove(q, t), pri[t := p], t);
      } else {
        OthersSorted(q, pri, t, p);
      }
    }
  }

  lemma OthersSorted(q: seq<nat>, pri: seq<nat>, t: nat, p: nat)
    requires Sorted(q, pri) && t !in q && t < |pri|
    ensures Sorted(q, pri[t := p])
  {
    assert forall i :: 0 <= i < |q| ==> q[i] != t && Pri(pri[t := p], q[i]) == Pri(pri, q[i]);
  }

  lemma JoinsAt<T>(q: seq<Waiter<T>>, w: Waiter<T>, i: nat)
    requires i <= |q|
    ensures var r := q[..i] + [w] + q[i..];
            && |TskIds(q)| == |q| && TskIds(r) == TskIds(q)[..i] + [w.tsk] + TskIds(q)[i..]
            && multiset(r) == multiset(q) + multiset{w}
            && multiset(Infos(r)) == multiset(Infos(q)) + multiset{w.info}
            && (i == |q| ==> r == q + [w])
  {
    var r := q[..i] + [w] + q[i..];
    assert q == q[..i] + q[i..];
    assert Infos(r) == Infos(q)[..i] + [w.info] + Infos(q)[i..];
    assert Infos(q) == Infos(q)[..i] + Infos(q)[i..];
  }

  lemma LeavesAt<T>(q: seq<Waiter<T>>, i: nat)
    requires i < |q|
    ensures var r := q[..i] + q[i + 1..];
            && |TskIds(q)| == |q| && TskIds(r) == TskIds(q)[..i] + TskIds(q)[i + 1..]
            && multiset(q) == multiset(r) + multiset{q[i]}
            && multiset(Infos(q)) == multiset(Infos(r)) + multiset{q[i].info}
  {
    var r := q[..i] + q[i + 1..];
    assert q == q[..i] + [q[i]] + q[i + 1..];
    assert Infos(r) == Infos(q)[..i] + Infos(q)[i + 1..];
    assert Infos(q) == Infos(q)[..i] + [q[i].info] + Infos(q)[i + 1..];
  }

  /** A queue stays in order when a task leaves it. */
  lemma LeavesOk<T>(q: seq<Waiter<T>>, i: nat, tpri: bool, pri: seq<nat>)
    requires i < |q| && QueueOk(TskIds(q), tpri, pri)
    ensures QueueOk(TskIds(q[..i] + q[i + 1..]), tpri, pri)
  {
    LeavesAt(q, i);
    var a, b := TskIds(q), TskIds(q[..i] + q[i + 1..]);
    assert forall k :: 0 <= k < |b| ==> b[k] == a[if k < i then k else k + 1];
  }

  lemma HeadLeaves<T>(q: seq<Waiter<T>>, tpri: bool, pri: seq<nat>)
    requires q != [] && QueueOk(TskIds(q), tpri, pri)
    ensures QueueOk(TskIds(q[1..]), tpri, pri) && Infos(q) == [q[0].info] + Infos(q[1..])
  {
    LeavesOk(q, 0, tpri, pri);
    assert q[..0] + q[1..] == q[1..];
  }

  lemma NobodyWaits<T>(tpri: bool, pri: seq<nat>)
    ensures Infos<T>([]) == [] && TskIds<T>([]) == [] && QueueOk([], tpri, pri)
  {
  }

  lemma TailNoDup(q: seq<nat>)
    requires NoDup(q) && q != []
    ensures NoDup(q[1..])
  {
  }

  lemma SameSize<T>(q: seq<Waiter<T>>, r: seq<Waiter<T>>)
    requires multiset(r) == multiset(q)
    ensures |r| == |q|
  {
    assert |multiset(r)| == |r| && |multiset(q)| == |q|;
  }
}
