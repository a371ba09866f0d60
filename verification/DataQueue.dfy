/** kernel/dataqueue.c: the ring buffer of a data queue, and the sending, forced sending
    and receiving through it. */
module DataQueue {
  import opened Basics
  import opened OrderedList
  import opened WaitQueue
  import opened KernelSpec

  // ----- The ring -----------------------------------------------------------

  /** The place of the `i`-th datum in a ring of `n` places that starts at `head`. */
  function Slot(n: nat, head: nat, i: nat): int {
    if head + i < n then head + i else head + i - n
  }

  predicate RingOk(n: nat, head: nat, tail: nat, count: nat) {
    && count <= n
    && if n == 0 then head == 0 && tail == 0 else head < n && tail == if count == n then head else Slot(n, head, count)
  }

  /** The data in the ring, the oldest first. */
  function RingData<T>(mb: seq<T>, head: nat, count: nat): (q: seq<T>)
    requires count <= |mb| && (count > 0 ==> head < |mb|)
    ensures |q| == count && forall i :: 0 <= i < count ==> q[i] == mb[Slot(|mb|, head, i)]
  {
    seq(count, i requires 0 <= i < count => mb[Slot(|mb|, head, i)])
  }

  class DataRing {
    const mb: array<int>
    var count: nat
    var head: nat
    var tail: nat

    ghost predicate Valid()
      reads this
    {
      RingOk(mb.Length, head, tail, count)
    }

    ghost function Contents(): (q: seq<int>)
      reads this, mb
      requires Valid()
      ensures |q| == count <= mb.Length
    {
      RingData(mb[..], head, count)
    }

    constructor (dtqcnt: nat)
      ensures Valid() && Contents() == [] && mb.Length == dtqcnt && fresh(mb)
    {
      mb := new int[dtqcnt](_ => 0);
      count, head, tail := 0, 0, 0;
    }

    /** enqueue_data. */
    method Enqueue(data: int)
      requires Valid() && count < mb.Length
      modifies `count, `tail, mb
      ensures Valid() && Contents() == old(Contents()) + [data]
    {
      hide RingData;
      mb[tail] := data;
      count := count + 1;
      tail := tail + 1;
      if tail >= mb.Length {
        tail := 0;
      }
    }

    /** force_enqueue_data: a full ring loses its oldest datum. */
    method ForceEnqueue(data: int)
      requires Valid() && mb.Length > 0
      modifies this, mb
      ensures Valid()
      ensures Contents() == (if old(count) < mb.Length then old(Contents()) else old(Contents())[1..]) + [data]
    {
      hide RingData;
      mb[tail] := data;
      tail := tail + 1;
      if tail >= mb.Length {
        tail := 0;
      }
      if count < mb.Length {
        count := count + 1;
      } else {
        head := tail;
      }
    }

    /** dequeue_data. */
    method Dequeue() returns (data: int)
      requires Valid() && count > 0
      modifies `count, `head
      ensures Valid() && [data] + Contents() == old(Contents())
    {
      hide RingData;
      data := mb[head];
      count := count - 1;
      head := head + 1;
      if head >= mb.Length {
        head := 0;
      }
    }

    /** The part of ini_dtq that empties the ring. */
    method Reset()
      modifies this
      ensures Valid() && Contents() == []
    {
      count, head, tail := 0, 0, 0;
    }
  }

  // ----- Sending and receiving ----------------------------------------------

  /** Nothing appears from nowhere or is forgotten; and as long as nothing was lost and no
      sender overtook another, the data come out in the order in which they went in. */
  ghost predicate History(submitted: seq<int>, delivered: seq<int>, lost: multiset<int>, pending: seq<int>, inOrder: bool) {
    && multiset(submitted) == multiset(delivered) + lost + multiset(pending)
    && (inOrder ==> submitted == delivered + pending)
  }

  lemma Submitted(s: seq<int>, d: seq<int>, l: multiset<int>, p: seq<int>, o: bool, x: int, p1: seq<int>)
    requires History(s, d, l, p, o) && multiset(p1) == multiset(p) + multiset{x}
    ensures History(s + [x], d, l, p1, o && p1 == p + [x])
  {
    assert d + (p + [x]) == d + p + [x];
  }

  lemma Delivered(s: seq<int>, d: seq<int>, l: multiset<int>, p: seq<int>, o: bool, x: int, p1: seq<int>)
    requires History(s, d, l, p, o) && p == [x] + p1
    ensures History(s, d + [x], l, p1, o)
  {
    assert d + p == (d + [x]) + p1;
  }

  /** A datum that is handed over at once. */
  lemma Passed(s: seq<int>, d: seq<int>, l: multiset<int>, o: bool, x: int)
    requires History(s, d, l, [], o)
    ensures History(s + [x], d + [x], l, [], o)
  {
    assert d + [] == d && d + [x] + [] == d + [x];
  }

  lemma Lost(s: seq<int>, d: seq<int>, l: multiset<int>, p: seq<int>, o: bool, l1: multiset<int>, p1: seq<int>)
    requires History(s, d, l, p, o) && multiset(p) == multiset(p1) + l1
    ensures History(s, d, l + l1, p1, false)
    ensures p1 == p ==> History(s, d, l + l1, p1, o)
  {
  }

  /** The order of the senders has changed, but not what they offer. */
  lemma Reordered(s: seq<int>, d: seq<int>, l: multiset<int>, p: seq<int>, o: bool, p1: seq<int>)
    requires History(s, d, l, p, o) && multiset(p1) == multiset(p)
    ensures History(s, d, l, p1, o && p1 == p)
  {
  }

  class Dataq {
    const ring: DataRing
    const tpri: bool
    var swait: seq<Waiter<int>>
    var rwait: seq<nat>
    var priority: seq<nat>            // the current priorities of the tasks

    ghost var submitted: seq<int>     // what tasks and handlers gave to the queue, in order
    ghost var delivered: seq<int>     // what receivers got, in order
    ghost var lost: multiset<int>     // what was withdrawn, discarded or overwritten
    ghost var inOrder: bool           // nothing was lost, and no sender overtook another

    ghost predicate Valid()
      reads this, ring, ring.mb
    {
      && ring.Valid()
      && QueueOk(TskIds(swait), tpri, priority) && NoDup(rwait)
      && (swait != [] ==> ring.count == ring.mb.Length)
      && (rwait != [] ==> ring.count == 0 && swait == [])
      && History(submitted, delivered, lost, Pending(), inOrder)
    }

    /** What is in the queue, followed by what tasks wait to put there. */
    ghost function Pending(): seq<int>
      reads this, ring, ring.mb
      requires ring.Valid()
    {
      ring.Contents() + Infos(swait)
    }

    constructor (dtqcnt: nat, tpri: bool, priority: seq<nat>)
      ensures Valid() && inOrder && fresh(ring) && fresh(ring.mb)
      ensures ring.mb.Length == dtqcnt && ring.Contents() == [] && swait == [] && rwait == []
      ensures this.tpri == tpri && this.priority == priority
    {
      ring := new DataRing(dtqcnt);
      this.tpri, this.priority := tpri, priority;
      swait, rwait := [], [];
      submitted, delivered, lost, inOrder := [], [], multiset{}, true;
    }

    /** A datum goes straight to the first waiting receiver. */
    method HandToReceiver(data: int) returns (woken: nat)
      requires Valid() && rwait != []
      modifies `rwait, `submitted, `delivered
      ensures Valid() && woken == old(rwait)[0] && rwait == old(rwait)[1..]
      ensures submitted == old(submitted) + [data] && delivered == old(delivered) + [data]
    {
      hide QueueOk, NoDup, TskIds, Infos, History;
      woken := rwait[0];
      TailNoDup(rwait);
      NothingOffered();
      assert Pending() == [];
      Passed(submitted, delivered, lost, inOrder, data);
      rwait := rwait[1..];
      submitted, delivered := submitted + [data], delivered + [data];
    }

    lemma NothingOffered()
      ensures Infos<int>([]) == []
    {
    }

    /** send_data. */
    method SendData(data: int) returns (sent: bool, woken: Option<nat>)
      requires Valid()
      modifies `swait, `rwait, `submitted, `delivered, `lost, `inOrder, ring, ring.mb
      ensures Valid() && swait == old(swait) && lost == old(lost) && inOrder == old(inOrder)
      ensures sent <==> old(rwait) != [] || |old(ring.Contents())| < ring.mb.Length
      ensures submitted == old(submitted) + (if sent then [data] else [])
      ensures old(rwait) != [] ==>
                && woken == Some(old(rwait)[0]) && rwait == old(rwait)[1..]
                && ring.Contents() == old(ring.Contents()) && delivered == old(delivered) + [data]
      ensures old(rwait) == [] ==> woken == None && rwait == [] && delivered == old(delivered)
      ensures old(rwait) == [] && sent ==> ring.Contents() == old(ring.Contents()) + [data]
      ensures !sent ==> ring.Contents() == old(ring.Contents())
    {
      hide QueueOk, NoDup, TskIds, Infos, RingData, RingOk, History;
      if rwait != [] {
        var t := HandToReceiver(data);
        return true, Some(t);
      }
      if ring.count < ring.mb.Length {
        Store(data);
        return true, None;
      }
      return false, None;
    }

    /** A datum goes into the ring, which has room and no waiting senders. */
    method Store(data: int)
      requires Valid() && rwait == [] && ring.count < ring.mb.Length
      modifies `submitted, ring, ring.mb
      ensures Valid() && ring.Contents() == old(ring.Contents()) + [data]
      ensures submitted == old(submitted) + [data]
    {
      hide QueueOk, NoDup, TskIds, Infos, RingData, RingOk, History;
      NothingOffered();
      assert Pending() == ring.Contents();
      Submitted(submitted, delivered, lost, Pending(), inOrder, data, Pending() + [data]);
      ring.Enqueue(data);
      submitted := submitted + [data];
      assert Pending() == ring.Contents();
    }

    /** force_send_data. */
    method ForceSendData(data: int) returns (woken: Option<nat>)
      requires Valid() && ring.mb.Length > 0
      modifies `swait, `rwait, `submitted, `delivered, `lost, `inOrder, ring, ring.mb
      ensures Valid() && swait == old(swait)
      ensures submitted == old(submitted) + [data]
      ensures old(rwait) != [] ==>
                && woken == Some(old(rwait)[0]) && rwait == old(rwait)[1..]
                && ring.Contents() == old(ring.Contents()) && delivered == old(delivered) + [data]
      ensures old(rwait) == [] ==>
                && woken == None && rwait == [] && delivered == old(delivered)
                && var q := old(ring.Contents());
                   ring.Contents() == (if |q| < ring.mb.Length then q else q[1..]) + [data]
      ensures inOrder == (old(inOrder) && (old(rwait) != [] || |old(ring.Contents())| < ring.mb.Length))
    {
      hide QueueOk, NoDup, TskIds, Infos, RingData, RingOk, History;
      if rwait != [] {
        var t := HandToReceiver(data);
        return Some(t);
      }
      if ring.count < ring.mb.Length {
        ForceStore(data);
      } else {
        Overwrite(data);
      }
      return None;
    }

    /** A forced datum into a ring with room, which has no waiting senders. */
    method ForceStore(data: int)
      requires Valid() && rwait == [] && ring.count < ring.mb.Length
      modifies `submitted, ring, ring.mb
      ensures Valid() && ring.Contents() == old(ring.Contents()) + [data]
      ensures submitted == old(submitted) + [data]
    {
      hide QueueOk, NoDup, TskIds, Infos, RingData, RingOk, History;
      NothingOffered();
      assert Pending() == ring.Contents();
      Submitted(submitted, delivered, lost, Pending(), inOrder, data, Pending() + [data]);
      ring.ForceEnqueue(data);
      submitted := submitted + [data];
      assert Pending() == ring.Contents();
    }

    /** A forced datum into a full ring: the oldest datum is lost. */
    method Overwrite(data: int)
      requires Valid() && rwait == [] && ring.count == ring.mb.Length > 0
      modifies `submitted, `lost, `inOrder, ring, ring.mb
      ensures Valid() && ring.Contents() == old(ring.Contents())[1..] + [data]
      ensures submitted == old(submitted) + [data] && lost == old(lost) + multiset{old(ring.Contents())[0]} && !inOrder
    {
      hide QueueOk, NoDup, TskIds, Infos, RingData, History;
      ghost var q, r := ring.Contents(), Infos(swait);
      OverwriteBag(q, r, data);
      Submitted(submitted, delivered, lost, q + r, inOrder, data, q + r + [data]);
      Lost(submitted + [data], delivered, lost, q + r + [data], inOrder, multiset{q[0]}, q[1..] + [data] + r);
      ring.ForceEnqueue(data);
      submitted := submitted + [data];
      lost := lost + multiset{q[0]};
      inOrder := false;
    }

    /** fsnd_dtq and ifsnd_dtq.  The error for a queue without capacity is overwritten in the
        source, so that the answer is E_OK although nothing was sent. */
    method FsndDtq(data: int) returns (er: Er, woken: Option<nat>)
      requires Valid()
      modifies `swait, `rwait, `submitted, `delivered, `lost, `inOrder, ring, ring.mb
      ensures Valid() && er == E_OK
      ensures submitted == old(submitted) + (if ring.mb.Length > 0 then [data] else [])
      ensures swait == old(swait)
      ensures var q, room := old(ring.Contents()), old(|ring.Contents()|) < ring.mb.Length;
              if ring.mb.Length == 0 then
                woken == None && rwait == old(rwait) && ring.Contents() == q && delivered == old(delivered)
              else if old(rwait) != [] then
                && woken == Some(old(rwait)[0]) && rwait == old(rwait)[1..]
                && ring.Contents() == q && delivered == old(delivered) + [data]
              else
                && woken == None && rwait == [] && delivered == old(delivered)
                && ring.Contents() == (if room then q else q[1..]) + [data]
                && inOrder == (old(inOrder) && room)
      ensures ring.mb.Length == 0 || old(rwait) != [] ==> inOrder == old(inOrder)
    {
      hide QueueOk, NoDup, TskIds, Infos, RingData, RingOk, History;
      er := E_ILUSE;
      woken := None;
      if ring.mb.Length > 0 {
        woken := ForceSendData(data);
      }
      er := E_OK;
    }

    /** receive_data. */
    method ReceiveData() returns (got: bool, x: int, woken: Option<nat>)
      requires Valid()
      modifies `swait, `rwait, `submitted, `delivered, `lost, `inOrder, ring, ring.mb
      ensures Valid() && rwait == old(rwait) && lost == old(lost) && submitted == old(submitted)
      ensures inOrder == old(inOrder)
      ensures got <==> old(Pending()) != []
      ensures got ==> delivered == old(delivered) + [x] && [x] + Pending() == old(Pending())
      ensures !got ==> delivered == old(delivered) && Pending() == old(Pending()) && woken == None
      ensures got && old(swait) != [] ==> woken == Some(old(swait)[0].tsk) && swait == old(swait)[1..]
      ensures old(swait) == [] ==> woken == None && swait == []
    {
      hide QueueOk, NoDup, TskIds, Infos, RingData, RingOk, History;
      FirstOffered(swait);
      if ring.count > 0 {
        x, woken := TakeFromRing();
        return true, x, woken;
      }
      if swait != [] {
        x, woken := TakeFromSender();
        return true, x, woken;
      }
      return false, 0, None;
    }

    /** The first case of receive_data: the first waiting sender refills the ring. */
    method TakeFromRing() returns (x: int, woken: Option<nat>)
      requires Valid() && ring.count > 0
      modifies `swait, `rwait, `submitted, `delivered, `lost, `inOrder, ring, ring.mb
      ensures Valid() && rwait == old(rwait) && lost == old(lost) && submitted == old(submitted)
      ensures inOrder == old(inOrder)
      ensures delivered == old(delivered) + [x] && [x] + Pending() == old(Pending())
      ensures if old(swait) == [] then woken == None && swait == []
              else woken == Some(old(swait)[0].tsk) && swait == old(swait)[1..]
    {
      hide QueueOk, NoDup, TskIds, Infos, RingData, RingOk, History;
      ghost var p := Pending();
      x := ring.Dequeue();
      assert p == [x] + Pending();
      woken := Refill();
      Delivered(submitted, delivered, lost, p, inOrder, x, Pending());
      delivered := delivered + [x];
    }

    /** The first waiting sender's datum moves into the ring, behind the others. */
    method Refill() returns (woken: Option<nat>)
      requires ring.Valid() && QueueOk(TskIds(swait), tpri, priority) && ring.count < ring.mb.Length
      requires swait != [] ==> ring.count + 1 == ring.mb.Length
      modifies `swait, ring, ring.mb
      ensures ring.Valid() && QueueOk(TskIds(swait), tpri, priority) && Pending() == old(Pending())
      ensures swait != [] ==> ring.count == ring.mb.Length
      ensures if old(swait) == [] then woken == None && swait == []
              else woken == Some(old(swait)[0].tsk) && swait == old(swait)[1..]
    {
      hide QueueOk, NoDup, TskIds, Infos, RingData, RingOk;
      if swait == [] {
        return None;
      }
      HeadLeaves(swait, tpri, priority);
      ghost var p := Pending();
      assert p == ring.Contents() + [swait[0].info] + Infos(swait[1..]);
      ring.Enqueue(swait[0].info);
      woken := Some(swait[0].tsk);
      swait := swait[1..];
    }

    /** The second case of receive_data: a queue without capacity. */
    method TakeFromSender() returns (x: int, woken: Option<nat>)
      requires Valid() && ring.count == 0 && swait != []
      modifies `swait, `delivered
      ensures Valid() && woken == Some(old(swait)[0].tsk) && swait == old(swait)[1..]
      ensures delivered == old(delivered) + [x] && [x] + Pending() == old(Pending())
    {
      hide QueueOk, NoDup, TskIds, Infos, RingData, RingOk, History;
      ghost var p := Pending();
      HeadLeaves(swait, tpri, priority);
      x := swait[0].info;
      woken := Some(swait[0].tsk);
      swait := swait[1..];
      assert p == [x] + Pending();
      Delivered(submitted, delivered, lost, p, inOrder, x, Pending());
      delivered := delivered + [x];
    }

    /** The waiting branch of snd_dtq, after send_data could not send. */
    method WaitToSend(t: nat, data: int)
      requires Valid() && rwait == [] && ring.count == ring.mb.Length && t !in TskIds(swait)
      modifies `swait, `submitted, `inOrder
      ensures Valid() && submitted == old(submitted) + [data]
      ensures TskIds(swait) == Joined(TskIds(old(swait)), tpri, priority, t)
      ensures multiset(swait) == multiset(old(swait)) + multiset{Waiter(t, data)}
      ensures !tpri ==> inOrder == old(inOrder)
    {
      hide Joined, QueueOk, NoDup, RingData, RingOk, Infos, TskIds, History;
      ghost var p, q := Pending(), swait;
      swait := Join(swait, tpri, priority, Waiter(t, data));
      BagOf(ring.Contents(), Infos(q), Infos(swait), data);
      Submitted(submitted, delivered, lost, p, inOrder, data, Pending());
      LastOffered(q, Waiter(t, data), ring.Contents());
      inOrder := inOrder && Pending() == p + [data];
      submitted := submitted + [data];
    }

    /** wobj_change_priority: the priority of task `t` has become `p`. */
    method ChangePriority(t: nat, p: nat)
      requires Valid() && t < |priority|
      modifies `swait, `priority, `inOrder
      ensures Valid() && priority == old(priority)[t := p]
      ensures TskIds(swait) == Moved(TskIds(old(swait)), tpri, priority, t) && multiset(swait) == multiset(old(swait))
      ensures !tpri ==> swait == old(swait) && inOrder == old(inOrder)
    {
      hide Moved, QueueOk, NoDup, RingData, RingOk, Infos, TskIds, History;
      ghost var before, q := Pending(), swait;
      swait := Move(swait, tpri, priority, t, p);
      priority := priority[t := p];
      SameSize(q, swait);
      Reordered(submitted, delivered, lost, before, inOrder, Pending());
      inOrder := inOrder && Pending() == before;
    }

    /** The waiting branch of rcv_dtq, after receive_data found nothing: always in FIFO order. */
    method WaitToReceive(t: nat)
      requires Valid() && ring.count == 0 && swait == [] && t !in rwait
      modifies `rwait
      ensures Valid() && rwait == old(rwait) + [t]
    {
      hide RingData, RingOk, History, QueueOk;
      rwait := rwait + [t];
    }

    /** snd_dtq (with TMO_FEVR) and tsnd_dtq. */
    method SndDtq(t: nat, data: int, tmo: Tmo, dspflg: bool, waifbd: bool) returns (ret: Ret, woken: Option<nat>)
      requires Valid() && t !in TskIds(swait)
      modifies `swait, `rwait, `submitted, `delivered, `lost, `inOrder, ring, ring.mb
      ensures Valid()
      ensures ret == if !dspflg then Ret(E_CTX)
                     else if tmo < TMO_FEVR then Ret(E_PAR)
                     else if old(rwait) != [] || |old(ring.Contents())| < ring.mb.Length then Ret(E_OK)
                     else if tmo == TMO_POL then Ret(E_TMOUT)
                     else if waifbd then Ret(E_RLWAI)
                     else Ret.Blocks
      ensures submitted == old(submitted) + (if ret.Blocks? || ret == Ret(E_OK) then [data] else [])
      ensures !tpri ==> inOrder == old(inOrder)
      ensures ret == Ret(E_OK) && old(rwait) != [] ==>
                woken == Some(old(rwait)[0]) && rwait == old(rwait)[1..] && delivered == old(delivered) + [data]
      ensures ret == Ret(E_OK) && old(rwait) == [] ==>
                woken == None && delivered == old(delivered) && ring.Contents() == old(ring.Contents()) + [data]
      ensures ret != Ret(E_OK) ==>
                woken == None && delivered == old(delivered) && ring.Contents() == old(ring.Contents()) && rwait == old(rwait)
      ensures if ret.Blocks? then TskIds(swait) == Joined(TskIds(old(swait)), tpri, priority, t) else swait == old(swait)
    {
      hide Joined, QueueOk, NoDup, RingData, RingOk, Infos, TskIds, History;
      if !dspflg {
        return Ret(E_CTX), None;
      }
      if tmo < TMO_FEVR {
        return Ret(E_PAR), None;
      }
      var sent;
      sent, woken := SendData(data);
      if sent {
        return Ret(E_OK), woken;
      }
      if tmo == TMO_POL {
        return Ret(E_TMOUT), None;
      }
      if waifbd {
        return Ret(E_RLWAI), None;
      }
      WaitToSend(t, data);
      return Ret.Blocks, None;
    }

    /** psnd_dtq and ipsnd_dtq, which never wait. */
    method PsndDtq(data: int) returns (ret: Ret, woken: Option<nat>)
      requires Valid()
      modifies `swait, `rwait, `submitted, `delivered, `lost, `inOrder, ring, ring.mb
      ensures Valid() && swait == old(swait) && inOrder == old(inOrder)
      ensures ret == if old(rwait) != [] || |old(ring.Contents())| < ring.mb.Length then Ret(E_OK) else Ret(E_TMOUT)
      ensures submitted == old(submitted) + (if ret == Ret(E_OK) then [data] else [])
      ensures if ret == Ret(E_OK) && old(rwait) != []
              then woken == Some(old(rwait)[0]) && rwait == old(rwait)[1..] && delivered == old(delivered) + [data]
              else woken == None && rwait == old(rwait) && delivered == old(delivered)
      ensures ring.Contents() == old(ring.Contents()) + (if ret == Ret(E_OK) && old(rwait) == [] then [data] else [])
    {
      hide QueueOk, NoDup, RingData, RingOk, Infos, TskIds, History;
      var sent;
      sent, woken := SendData(data);
      ret := if sent then Ret(E_OK) else Ret(E_TMOUT);
    }

    /** rcv_dtq (with TMO_FEVR) and trcv_dtq. */
    method RcvDtq(t: nat, tmo: Tmo, dspflg: bool, waifbd: bool) returns (ret: Ret, x: int, woken: Option<nat>)
      requires Valid() && t !in rwait
      modifies `swait, `rwait, `submitted, `delivered, `lost, `inOrder, ring, ring.mb
      ensures Valid() && submitted == old(submitted) && inOrder == old(inOrder)
      ensures ret == if !dspflg then Ret(E_CTX)
                     else if tmo < TMO_FEVR then Ret(E_PAR)
                     else if old(Pending()) != [] then Ret(E_OK)
                     else if tmo == TMO_POL then Ret(E_TMOUT)
                     else if waifbd then Ret(E_RLWAI)
                     else Ret.Blocks
      ensures ret == Ret(E_OK) ==>
                && delivered == old(delivered) + [x] && [x] + Pending() == old(Pending())
                && woken == (if old(swait) != [] then Some(old(swait)[0].tsk) else None)
      ensures ret != Ret(E_OK) ==> woken == None && delivered == old(delivered) && Pending() == old(Pending())
      ensures rwait == old(rwait) + (if ret.Blocks? then [t] else [])
    {
      hide QueueOk, NoDup, RingData, RingOk, Infos, TskIds, History;
      x, woken := 0, None;
      if !dspflg {
        return Ret(E_CTX), x, woken;
      }
      if tmo < TMO_FEVR {
        return Ret(E_PAR), x, woken;
      }
      var got;
      got, x, woken := ReceiveData();
      if got {
        return Ret(E_OK), x, woken;
      }
      if tmo == TMO_POL {
        return Ret(E_TMOUT), x, woken;
      }
      if waifbd {
        return Ret(E_RLWAI), x, woken;
      }
      NothingPending();
      WaitToReceive(t);
      return Ret.Blocks, x, woken;
    }

    /** prcv_dtq, which never waits. */
    method PrcvDtq() returns (ret: Ret, x: int, woken: Option<nat>)
      requires Valid()
      modifies `swait, `rwait, `submitted, `delivered, `lost, `inOrder, ring, ring.mb
      ensures Valid() && submitted == old(submitted) && rwait == old(rwait) && inOrder == old(inOrder)
      ensures ret == if old(Pending()) != [] then Ret(E_OK) else Ret(E_TMOUT)
      ensures if ret == Ret(E_OK)
              then && delivered == old(delivered) + [x] && [x] + Pending() == old(Pending())
                   && woken == (if old(swait) != [] then Some(old(swait)[0].tsk) else None)
              else woken == None && delivered == old(delivered) && Pending() == old(Pending())
    {
      hide QueueOk, NoDup, RingData, RingOk, Infos, TskIds, History;
      var got;
      got, x, woken := ReceiveData();
      ret := if got then Ret(E_OK) else Ret(E_TMOUT);
    }

    lemma NothingPending()
      requires Valid() && Pending() == []
      ensures ring.count == 0 && swait == []
    {
      hide History, NoDup;
      assert |Infos(swait)| == |swait|;
    }

    /** A waiting receiver gives up: timeout, rel_wai or ter_tsk. */
    method ReceiverGivesUp(t: nat)
      requires Valid() && t in rwait
      modifies `rwait
      ensures Valid() && rwait == Remove(old(rwait), t)
    {
      hide RingData, RingOk, History, QueueOk;
      RemoveNoDup(rwait, t);
      rwait := Remove(rwait, t);
    }

    /** A waiting sender gives up: timeout, rel_wai or ter_tsk. */
    method SenderGivesUp(i: nat)
      requires Valid() && i < |swait|
      modifies `swait, `lost, `inOrder
      ensures Valid() && swait == old(swait)[..i] + old(swait)[i + 1..]
      ensures lost == old(lost) + multiset{old(swait)[i].info}
    {
      hide RingData, RingOk, QueueOk, NoDup, History;
      ghost var p, x := Pending(), swait[i].info;
      LeavesAt(swait, i);
      LeavesOk(swait, i, tpri, priority);
      swait := swait[..i] + swait[i + 1..];
      assert multiset(p) == multiset(Pending()) + multiset{x};
      Lost(submitted, delivered, lost, p, inOrder, multiset{x}, Pending());
      lost, inOrder := lost + multiset{x}, false;
    }

    /** ini_dtq: everybody who waits is woken with E_DLT, senders first. */
    method InitDtq() returns (woken: seq<nat>)
      requires Valid()
      modifies `swait, `rwait, `lost, `inOrder, ring
      ensures Valid() && ring.Contents() == [] && swait == [] && rwait == []
      ensures woken == TskIds(old(swait)) + old(rwait)
      ensures submitted == old(submitted) && delivered == old(delivered) && lost == old(lost) + multiset(old(Pending()))
    {
      hide RingData, RingOk, QueueOk, NoDup, History;
      ghost var p := Pending();
      Lost(submitted, delivered, lost, p, inOrder, multiset(p), []);
      lost := lost + multiset(p);
      inOrder := inOrder && p == [];
      woken := TskIds(swait) + rwait;
      swait, rwait := [], [];
      ring.Reset();
      NobodyWaits<int>(tpri, priority);
      assert Pending() == [];
      assert NoDup(rwait) by { EmptyNoDup(); }
    }

    lemma EmptyNoDup()
      ensures NoDup<nat>([])
    {
    }
  }

  lemma OverwriteBag(q: seq<int>, r: seq<int>, data: int)
    requires q != []
    ensures multiset(q + r) + multiset{data} == multiset(q[1..] + [data] + r) + multiset{q[0]}
  {
    assert q + r == [q[0]] + q[1..] + r;
  }

  lemma BagOf(c: seq<int>, q: seq<int>, r: seq<int>, x: int)
    requires multiset(r) == multiset(q) + multiset{x}
    ensures multiset(c + r) == multiset(c + q) + multiset{x}
  {
  }

  lemma FirstOffered(q: seq<Waiter<int>>)
    ensures q != [] ==> Infos(q) == [q[0].info] + Infos(q[1..])
    ensures q == [] ==> Infos(q) == []
  {
  }

  lemma LastOffered(q: seq<Waiter<int>>, w: Waiter<int>, c: seq<int>)
    ensures c + Infos(q + [w]) == c + Infos(q) + [w.info]
  {
    assert Infos(q + [w]) == Infos(q) + [w.info];
  }
}
