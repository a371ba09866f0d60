/** include/queue.h: doubly linked rings, with the pointers as they are.  A ring is read
    as the sequence of its entries, and each operation is proved against the operation on
    sequences that the rest of the kernel model uses in its place. */
module QueueRing {
  import opened OrderedList

  class Queue {
    const id: nat  // the task whose control block contains the entry
    var next: Queue?
    var prev: Queue?

    constructor (id: nat)
      ensures this.id == id && next == this && prev == this
    {
      this.id := id;
      next, prev := this, this;
    }
  }

  /** The queue header and its entries form a ring in this order. */
  ghost predicate Ring(head: Queue, es: seq<Queue>)
    reads head, es
  {
    && head !in es && NoDup(es)
    && Linked(head, if es == [] then head else es[0])
    && (forall i {:trigger es[i]} :: 0 <= i < |es| ==> Linked(es[i], if i + 1 < |es| then es[i + 1] else head))
  }

  ghost predicate Linked(a: Queue, b: Queue)
    reads a, b
  {
    a.next == b && b.prev == a
  }

  /** The entry at position `i`, where the header comes after the last entry. */
  ghost function At(head: Queue, es: seq<Queue>, i: nat): Queue
    requires i <= |es|
  {
    if i < |es| then es[i] else head
  }

  ghost function Before(head: Queue, es: seq<Queue>, i: nat): Queue
    requires i <= |es|
  {
    if i == 0 then head else es[i - 1]
  }

  function Ids(es: seq<Queue>): seq<nat> {
    seq(|es|, i requires 0 <= i < |es| => es[i].id)
  }

  function Insert<T>(es: seq<T>, i: nat, e: T): seq<T>
    requires i <= |es|
  {
    es[..i] + [e] + es[i..]
  }

  function Omit<T>(es: seq<T>, i: nat): seq<T>
    requires i < |es|
  {
    es[..i] + es[i + 1..]
  }

  /** queue_initialize. */
  method Initialize(q: Queue)
    modifies q
    ensures Ring(q, [])
  {
    q.prev, q.next := q, q;
  }

  /** All neighbours in the ring are linked, with the possible exception of the place `i`. */
  ghost predicate LinkedBut(head: Queue, es: seq<Queue>, i: int)
    reads head, es
  {
    forall j {:trigger At(head, es, j)} {:trigger Before(head, es, j)} :: 0 <= j <= |es| && j != i ==>
      Linked(Before(head, es, j), At(head, es, j))
  }

  lemma RingLinks(head: Queue, es: seq<Queue>)
    requires head !in es && NoDup(es)
    ensures Ring(head, es) <==> LinkedBut(head, es, -1)
  {
    if Ring(head, es) {
      forall j | 0 <= j <= |es|
        ensures Linked(Before(head, es, j), At(head, es, j))
      {
      }
    }
    if LinkedBut(head, es, -1) {
      assert Linked(Before(head, es, 0), At(head, es, 0));
      forall i | 0 <= i < |es|
        ensures Linked(es[i], if i + 1 < |es| then es[i + 1] else head)
      {
        assert Linked(Before(head, es, i + 1), At(head, es, i + 1));
      }
    }
  }

  /** What the ring says of the neighbours of place `i`. */
  lemma Opened(head: Queue, es: seq<Queue>, i: nat)
    requires Ring(head, es) && i <= |es|
    ensures head !in es && NoDup(es) && LinkedBut(head, es, -1)
    ensures Linked(Before(head, es, i), At(head, es, i))
    ensures forall j {:trigger At(head, es, j)} :: 0 <= j <= |es| && j != i ==> At(head, es, j) != At(head, es, i)
    ensures forall j {:trigger Before(head, es, j)} :: 0 <= j <= |es| && j != i ==>
              Before(head, es, j) != Before(head, es, i)
    ensures forall j {:trigger At(head, es, j)} :: 0 <= j <= |es| ==> At(head, es, j) == head || At(head, es, j) in es
    ensures forall j {:trigger Before(head, es, j)} :: 0 <= j <= |es| ==>
              Before(head, es, j) == head || Before(head, es, j) in es
  {
    RingLinks(head, es);
  }

  /** A new entry closes the gap between its neighbours. */
  lemma CloseGap(head: Queue, es: seq<Queue>, i: nat, e: Queue)
    requires head !in es && NoDup(es) && i <= |es| && e != head && e !in es
    requires LinkedBut(head, es, i) && Linked(Before(head, es, i), e) && Linked(e, At(head, es, i))
    ensures Ring(head, Insert(es, i, e))
  {
    var es1 := Insert(es, i, e);
    InsertNoDup(es, i, e);
    forall j | 0 <= j <= |es1|
      ensures Linked(Before(head, es1, j), At(head, es1, j))
    {
      if j < i {
        assert Before(head, es1, j) == Before(head, es, j) && At(head, es1, j) == At(head, es, j);
      } else if j > i + 1 {
        assert Before(head, es1, j) == Before(head, es, j - 1) && At(head, es1, j) == At(head, es, j - 1);
      } else {
        assert j == i ==> At(head, es1, j) == e && Before(head, es1, j) == Before(head, es, i);
        assert j == i + 1 ==> Before(head, es1, j) == e && At(head, es1, j) == At(head, es, i);
      }
    }
    RingLinks(head, es1);
  }

  /** Joining the neighbours of the entry at place `i` leaves it out. */
  lemma BridgeGap(head: Queue, es: seq<Queue>, i: nat)
    requires head !in es && NoDup(es) && i < |es|
    requires forall j {:trigger At(head, es, j)} {:trigger Before(head, es, j)} ::
               0 <= j <= |es| && j != i && j != i + 1 ==> Linked(Before(head, es, j), At(head, es, j))
    requires Linked(Before(head, es, i), At(head, es, i + 1))
    ensures Ring(head, Omit(es, i))
  {
    var es1 := Omit(es, i);
    assert head !in es1;
    forall j | 0 <= j <= |es1|
      ensures Linked(Before(head, es1, j), At(head, es1, j))
    {
      if j < i {
        assert Before(head, es1, j) == Before(head, es, j) && At(head, es1, j) == At(head, es, j);
      } else if j > i {
        assert Before(head, es1, j) == Before(head, es, j + 1) && At(head, es1, j) == At(head, es, j + 1);
      } else {
        assert Before(head, es1, i) == Before(head, es, i) && At(head, es1, i) == At(head, es, i + 1);
      }
    }
    RingLinks(head, es1);
  }

  /** queue_insert_prev: in front of `q`, which is at position `i`. */
  method InsertPrev(q: Queue, e: Queue, ghost head: Queue, ghost es: seq<Queue>, ghost i: nat)
    requires Ring(head, es) && i <= |es| && q == At(head, es, i) && e != head && e !in es
    modifies head, es, e
    ensures Ring(head, Insert(es, i, e))
  {
    hide NoDup, At, Before, Ring, Insert;
    Opened(head, es, i);
    e.prev := q.prev;
    e.next := q;
    q.prev.next := e;
    q.prev := e;
    CloseGap(head, es, i, e);
  }

  /** queue_insert_next: behind `q`, which comes before position `i`. */
  method InsertNext(q: Queue, e: Queue, ghost head: Queue, ghost es: seq<Queue>, ghost i: nat)
    requires Ring(head, es) && i <= |es| && q == Before(head, es, i) && e != head && e !in es
    modifies head, es, e
    ensures Ring(head, Insert(es, i, e))
  {
    hide NoDup, At, Before, Ring, Insert;
    Opened(head, es, i);
    e.prev := q;
    e.next := q.next;
    q.next.prev := e;
    q.next := e;
    CloseGap(head, es, i, e);
  }

  /** queue_delete: the entry at position `i`. */
  method Delete(e: Queue, ghost head: Queue, ghost es: seq<Queue>, ghost i: nat)
    requires Ring(head, es) && i < |es| && e == es[i]
    modifies head, es
    ensures Ring(head, Omit(es, i))
  {
    hide NoDup, At, Before, Ring, Omit;
    Opened(head, es, i);
    Opened(head, es, i + 1);
    Neighbours(head, es, i);
    e.prev.next := e.next;
    e.next.prev := e.prev;
    BridgeGap(head, es, i);
  }

  lemma Neighbours(head: Queue, es: seq<Queue>, i: nat)
    requires i < |es|
    ensures At(head, es, i) == es[i] == Before(head, es, i + 1)
  {
  }

  /** queue_delete_next, applied to the header of a queue that is not empty. */
  method DeleteNext(head: Queue, ghost es: seq<Queue>) returns (e: Queue)
    requires Ring(head, es) && es != []
    modifies head, es
    ensures e == es[0] && Ring(head, es[1..])
  {
    hide NoDup, At, Before, Ring;
    Opened(head, es, 0);
    Opened(head, es, 1);
    Neighbours(head, es, 0);
    FirstBefore(head, es);
    e := head.next;
    head.next := e.next;
    e.next.prev := head;
    BridgeGap(head, es, 0);
    assert Omit(es, 0) == es[1..];
  }

  lemma FirstBefore(head: Queue, es: seq<Queue>)
    ensures Before(head, es, 0) == head
  {
  }

  /** queue_empty. */
  method Empty(head: Queue, ghost es: seq<Queue>) returns (b: bool)
    requires Ring(head, es)
    ensures b <==> es == []
  {
    b := head.next == head;
  }

  // ----- The operations on task identifiers ---------------------------------

  /** Insertion in front of the header appends, insertion behind it prepends. */
  lemma EndsOfQueue(es: seq<Queue>, e: Queue)
    ensures Ids(Insert(es, |es|, e)) == Ids(es) + [e.id]
    ensures Ids(Insert(es, 0, e)) == [e.id] + Ids(es)
  {
  }

  lemma IdsInsert(es: seq<Queue>, i: nat, e: Queue)
    requires i <= |es|
    ensures Ids(Insert(es, i, e)) == Ids(es)[..i] + [e.id] + Ids(es)[i..]
  {
  }

  /** Deletion takes the task out of the list. */
  lemma DeleteRemoves(es: seq<Queue>, i: nat)
    requires i < |es| && NoDup(Ids(es))
    ensures Ids(Omit(es, i)) == Remove(Ids(es), es[i].id)
  {
    var t := es[i].id;
    var a, b := Ids(es)[..i], Ids(es)[i + 1..];
    assert Ids(es) == a + [t] + b;
    assert forall k :: 0 <= k < i ==> a[k] == Ids(es)[k] && Ids(es)[k] != Ids(es)[i];
    RemoveAt(a, t, b);
    assert Ids(Omit(es, i)) == a + b;
  }

  /** The search of queue_insert_tpri: the first entry of a lower priority than `p`, or the header. */
  method FindTpri(head: Queue, t: nat, pri: seq<nat>, ghost es: seq<Queue>) returns (entry: Queue, ghost i: nat)
    requires Ring(head, es)
    ensures i <= |es| && entry == At(head, es, i)
    ensures InsertLast(Ids(es), pri, t) == Ids(es)[..i] + [t] + Ids(es)[i..]
  {
    hide InsertLast, Pri;
    var p := Pri(pri, t);
    entry := head.next;
    i := 0;
    while entry != head
      invariant i <= |es| && entry == At(head, es, i)
      invariant forall k :: 0 <= k < i ==> Pri(pri, es[k].id) <= p
      decreases |es| - i
    {
      if p < Pri(pri, entry.id) {
        break;
      }
      entry := entry.next;
      i := i + 1;
    }
    InsertAtPlace(Ids(es), pri, t, i);
  }

  lemma InsertAtPlace(q: seq<nat>, pri: seq<nat>, t: nat, i: nat)
    requires i <= |q| && forall k :: 0 <= k < i ==> Pri(pri, q[k]) <= Pri(pri, t)
    requires i < |q| ==> Pri(pri, t) < Pri(pri, q[i])
    ensures InsertLast(q, pri, t) == q[..i] + [t] + q[i..]
  {
    InsertLastAt(q[..i], q[i..], pri, t);
    assert q[..i] + q[i..] == q;
  }

  /** queue_insert_tpri: the entry goes in front of the first task of a lower priority. */
  method InsertTpri(head: Queue, e: Queue, pri: seq<nat>, ghost es: seq<Queue>) returns (ghost es1: seq<Queue>)
    requires Ring(head, es) && e != head && e !in es
    modifies head, es, e
    ensures Ring(head, es1) && Ids(es1) == InsertLast(Ids(es), pri, e.id)
  {
    hide Ring, InsertLast, Ids, Insert;
    var entry, i := FindTpri(head, e.id, pri, es);
    IdsInsert(es, i, e);
    InsertPrev(entry, e, head, es, i);
    es1 := Insert(es, i, e);
  }
}
