/** kernel/pridataq.c: the storage of a priority data queue, a sorted linked list and a
    free list that share one array of cells, and the sending and receiving through it. */
module PriDataQueue {
  import opened Basics
  import opened OrderedList
  import opened WaitQueue
  import opened KernelSpec

  const NIL: int := -1  // the null pointer
  const TMIN_DPRI: int := 1

  datatype Item = Item(data: int, pri: int)

  datatype Cell = Cell(item: Item, next: int)

  // ----- Priority queues of items -------------------------------------------

  /** Puts an item behind every item of the same or a higher priority. */
  function Insert(q: seq<Item>, x: Item): (r: seq<Item>)
    ensures |r| == |q| + 1
  {
    if q == [] || x.pri < q[0].pri then [x] + q else [q[0]] + Insert(q[1..], x)
  }

  ghost predicate ByPriority(q: seq<Item>) {
    forall i, j :: 0 <= i < j < |q| ==> q[i].pri <= q[j].pri
  }

  /** The items of one priority, in their order. */
  function OfPri(q: seq<Item>, p: int): seq<Item> {
    if q == [] then [] else (if q[0].pri == p then [q[0]] else []) + OfPri(q[1..], p)
  }

  lemma {:induction false} InsertSplit(q: seq<Item>, x: Item) returns (i: nat)
    ensures i <= |q| && Insert(q, x) == q[..i] + [x] + q[i..]
    ensures forall j :: 0 <= j < i ==> q[j].pri <= x.pri
    ensures ByPriority(q) ==> forall j :: i <= j < |q| ==> x.pri < q[j].pri
  {
    if q == [] || x.pri < q[0].pri {
      i := 0;
    } else {
      var k := InsertSplit(q[1..], x);
      i := k + 1;
      assert q[..i] == [q[0]] + q[1..][..k];
      assert q[i..] == q[1..][k..];
    }
  }

  lemma {:induction false} InsertAt(q: seq<Item>, x: Item, i: nat)
    requires i <= |q| && (forall j :: 0 <= j < i ==> q[j].pri <= x.pri) && (i < |q| ==> x.pri < q[i].pri)
    ensures Insert(q, x) == q[..i] + [x] + q[i..]
    decreases i
  {
    if i == 0 {
      assert q[..0] == [] && q[0..] == q;
    } else {
      InsertAt(q[1..], x, i - 1);
      assert q[..i] == [q[0]] + q[1..][..i - 1];
      assert q[i..] == q[1..][i - 1..];
    }
  }

  lemma InsertOrdered(q: seq<Item>, x: Item)
    requires ByPriority(q)
    ensures ByPriority(Insert(q, x))
  {
    var i := InsertSplit(q, x);
  }

  /** Among items of equal priority the queue is first-in first-out: an insertion appends
      to the items of its own priority and leaves those of all others alone. */
  lemma {:induction false} InsertStable(q: seq<Item>, x: Item, p: int)
    requires ByPriority(q)
    ensures OfPri(Insert(q, x), p) == OfPri(q, p) + (if x.pri == p then [x] else [])
  {
    if q == [] || x.pri < q[0].pri {
      assert ([x] + q)[1..] == q;
      if x.pri == p {
        NoneOf(q, p);
      }
    } else {
      var r := Insert(q[1..], x);
      assert ([q[0]] + r)[1..] == r;
      InsertStable(q[1..], x, p);
    }
  }

  lemma {:induction false} NoneOf(q: seq<Item>, p: int)
    requires forall i :: 0 <= i < |q| ==> q[i].pri != p
    ensures OfPri(q, p) == []
  {
    if q != [] {
      NoneOf(q[1..], p);
    }
  }

  /** The head of the queue is the oldest item of the highest priority that occurs. */
  lemma HeadIsOldest(q: seq<Item>)
    requires ByPriority(q) && q != []
    ensures OfPri(q, q[0].pri) == [q[0]] + OfPri(q[1..], q[0].pri)
    ensures forall p :: p < q[0].pri ==> OfPri(q, p) == []
    ensures forall p :: p != q[0].pri ==> OfPri(q[1..], p) == OfPri(q, p)
  {
    forall p | p < q[0].pri
      ensures OfPri(q, p) == []
    {
      NoneOf(q, p);
    }
  }

  lemma InsertBag(q: seq<Item>, x: Item)
    ensures multiset(Insert(q, x)) == multiset(q) + multiset{x}
  {
    var i := InsertSplit(q, x);
    assert q == q[..i] + q[i..];
  }

  // ----- Linked lists in the array ------------------------------------------

  /** The cells of `list` are chained in this order, from `head` to a null pointer. */
  ghost predicate Chain(cells: seq<Cell>, head: int, list: seq<nat>) {
    && head == At(list, 0)
    && forall i {:trigger list[i]} :: 0 <= i < |list| ==> list[i] < |cells| && cells[list[i]].next == At(list, i + 1)
  }

  function At(list: seq<nat>, i: nat): int {
    if i < |list| then list[i] else NIL
  }

  ghost function Items(cells: seq<Cell>, list: seq<nat>): seq<Item> {
    seq(|list|, i requires 0 <= i < |list| => if list[i] < |cells| then cells[list[i]].item else Item(0, 0))
  }

  /** The two lists share out the cells that have been used. */
  ghost predicate Shared(list: seq<nat>, free: seq<nat>, unused: nat) {
    && NoDup(list) && NoDup(free)
    && (forall c: nat {:trigger c in list} {:trigger c in free} :: !(c in list && c in free))
    && (forall c: nat {:trigger c in list} {:trigger c in free} :: (c in list || c in free) <==> c < unused)
  }

  class Storage {
    const mb: array<Cell>
    var head: int
    var freelist: int
    var unused: nat
    var count: nat

    ghost var list: seq<nat>
    ghost var free: seq<nat>

    ghost predicate Valid()
      reads this, mb
    {
      && unused <= mb.Length
      && Shared(list, free, unused)
      && Chain(mb[..], head, list) && Chain(mb[..], freelist, free)
      && count == |list|
      && ByPriority(Contents())
    }

    /** The data in the queue, the next to be taken first. */
    ghost function Contents(): seq<Item>
      reads this, mb
    {
      Items(mb[..], list)
    }

    constructor (pdqcnt: nat)
      ensures Valid() && Contents() == [] && mb.Length == pdqcnt && fresh(mb)
    {
      mb := new Cell[pdqcnt](_ => Cell(Item(0, 0), NIL));
      head, freelist, unused, count := NIL, NIL, 0, 0;
      list, free := [], [];
    }

    /** The part of ini_pdq that empties the storage. */
    method Reset()
      requires Valid()
      modifies this
      ensures Valid() && Contents() == [] && unused == 0 && count == 0
    {
      head, freelist, unused, count := NIL, NIL, 0, 0;
      list, free := [], [];
    }

    /** enqueue_pridata, first part: a cell is taken from the free list or from the cells
        that have not been used yet. */
    method TakeCell() returns (c: nat)
      requires Valid() && count < mb.Length
      modifies `freelist, `unused, `free
      ensures c < mb.Length && c !in list && c !in free && c < unused <= mb.Length
      ensures NoDup(free) && Chain(mb[..], freelist, free) && unused >= old(unused)
      ensures forall x: nat :: !(x in list && x in free)
      ensures forall x: nat :: (x in list || x in free || x == c) <==> x < unused
    {
      if freelist != NIL {
        c := freelist;
        assert free[0] == c && c in free;
        freelist := mb[c].next;
        RestChain(mb[..], free);
        free := free[1..];
      } else {
        c := unused;
        UsedUp(list, unused, mb.Length);
        unused := unused + 1;
      }
    }

    /** enqueue_pridata, second part: the place in the list, as the cell whose link is to
        be changed (or NIL for the head). */
    method FindPlace(datapri: int) returns (prev: int, next: int, ghost i: nat)
      requires Chain(mb[..], head, list)
      ensures i <= |list| && next == At(list, i) && prev == (if i == 0 then NIL else list[i - 1])
      ensures forall k :: 0 <= k < i ==> list[k] < mb.Length && mb[list[k]].item.pri <= datapri
      ensures i < |list| ==> list[i] < mb.Length && datapri < mb[list[i]].item.pri
    {
      prev, next, i := NIL, head, 0;
      while next != NIL
        invariant i <= |list| && next == At(list, i) && prev == (if i == 0 then NIL else list[i - 1])
        invariant forall k :: 0 <= k < i ==> list[k] < mb.Length && mb[list[k]].item.pri <= datapri
        decreases |list| - i
      {
        assert next == list[i];
        if mb[next].item.pri > datapri {
          break;
        }
        prev := next;
        next := mb[prev].next;
        i := i + 1;
      }
    }

    /** enqueue_pridata. */
    method Enqueue(data: int, datapri: int)
      requires Valid() && count < mb.Length
      modifies this, mb
      ensures Valid() && Contents() == Insert(old(Contents()), Item(data, datapri))
      ensures unused >= old(unused)
    {
      hide Shared, Chain, NoDup, Insert, ByPriority;
      StorageFacts(mb[..], head, list, freelist, free, unused);
      var c := TakeCell();
      ghost var x := Item(data, datapri);
      var prev, next, i := FindPlace(datapri);
      InsertAt(Contents(), x, i);
      InsertOrdered(Contents(), x);
      LinkIn(mb[..], head, list, freelist, free, c, i, x);
      ghost var cells1 := Linked(mb[..], list, c, i, x);
      ShareIn(list, free, unused, c, i);
      mb[c] := Cell(Item(data, datapri), next);
      if prev == NIL {
        head := c;
      } else {
        mb[prev] := mb[prev].(next := c);
      }
      count := count + 1;
      list := list[..i] + [c] + list[i..];
      assert mb[..] == cells1;
    }

    /** dequeue_pridata. */
    method Dequeue() returns (data: int, datapri: int)
      requires Valid() && count > 0
      modifies this, mb
      ensures Valid() && [Item(data, datapri)] + Contents() == old(Contents())
    {
      hide Shared, Chain, NoDup, ByPriority, Items;
      StorageFacts(mb[..], head, list, freelist, free, unused);
      HeadCell(mb[..], head, list);
      ShareBack(list, free, unused);
      var c := head;
      head := mb[c].next;
      count := count - 1;
      data, datapri := mb[c].item.data, mb[c].item.pri;
      ghost var cells1 := GiveBack(mb[..], list, freelist, free);
      RestOrdered(Contents(), Items(cells1, list[1..]));
      mb[c] := mb[c].(next := freelist);
      freelist := c;
      free := [c] + free;
      list := list[1..];
      assert mb[..] == cells1;
    }
  }

  // ----- Steps of the two operations ----------------------------------------

  lemma RestChain(cells: seq<Cell>, list: seq<nat>)
    requires list != [] && Chain(cells, At(list, 0), list) && NoDup(list)
    ensures Chain(cells, cells[list[0]].next, list[1..]) && list[0] !in list[1..] && NoDup(list[1..])
  {
    forall i | 0 <= i < |list[1..]|
      ensures list[1..][i] < |cells| && cells[list[1..][i]].next == At(list[1..], i + 1)
    {
      assert list[1..][i] == list[i + 1];
    }
  }

  /** What the two lists say of themselves and of each other. */
  lemma StorageFacts(cells: seq<Cell>, head: int, list: seq<nat>, freelist: int, free: seq<nat>, unused: nat)
    requires Chain(cells, head, list) && Chain(cells, freelist, free) && Shared(list, free, unused)
    ensures NoDup(list) && NoDup(free)
    ensures forall c: nat :: !(c in list && c in free)
    ensures forall i :: 0 <= i < |list| ==> list[i] < |cells|
    ensures head == At(list, 0)
  {
  }

  /** With an empty free list, as many cells are used as data are queued. */
  lemma UsedUp(list: seq<nat>, unused: nat, n: nat)
    requires |list| < n && forall c: nat :: c in list <==> c < unused
    ensures unused < n
  {
    assert UpTo(unused) == Elems(list);
    ListSize(list);
  }

  function UpTo(n: nat): (s: set<nat>)
    ensures |s| == n && forall c: nat :: c in s <==> c < n
  {
    if n == 0 then {} else UpTo(n - 1) + {n - 1}
  }

  function Elems(list: seq<nat>): set<nat> {
    set c | c in list
  }

  lemma {:induction false} ListSize(list: seq<nat>)
    ensures |Elems(list)| <= |list|
  {
    if list != [] {
      ListSize(list[1..]);
      assert Elems(list) == Elems(list[1..]) + {list[0]};
    }
  }

  lemma HeadCell(cells: seq<Cell>, head: int, list: seq<nat>)
    requires Chain(cells, head, list) && list != []
    ensures head == list[0] && list[0] < |cells| && cells[list[0]].next == At(list, 1)
  {
  }

  lemma RestOrdered(q: seq<Item>, r: seq<Item>)
    requires ByPriority(q) && q != [] && [q[0]] + r == q
    ensures ByPriority(r)
  {
    assert r == q[1..];
  }

  /** A chain does not care about cells outside it. */
  lemma ChainElsewhere(cells: seq<Cell>, cells1: seq<Cell>, head: int, list: seq<nat>)
    requires Chain(cells, head, list) && |cells1| == |cells|
    requires forall c: nat :: c in list && c < |cells| ==> cells1[c] == cells[c]
    ensures Chain(cells1, head, list) && Items(cells1, list) == Items(cells, list)
  {
  }

  /** Linking cell `c` in at position `i`: the cells afterwards. */
  ghost function Linked(cells: seq<Cell>, list: seq<nat>, c: nat, i: nat, x: Item): seq<Cell>
    requires c < |cells| && i <= |list| && (i > 0 ==> list[i - 1] < |cells|)
  {
    var cells1 := cells[c := Cell(x, At(list, i))];
    if i == 0 then cells1 else cells1[list[i - 1] := cells1[list[i - 1]].(next := c)]
  }

  lemma LinkIn(cells: seq<Cell>, head: int, list: seq<nat>, freelist: int, free: seq<nat>, c: nat, i: nat, x: Item)
    requires Chain(cells, head, list) && Chain(cells, freelist, free) && NoDup(list)
    requires c < |cells| && c !in list && c !in free && i <= |list|
    requires forall y: nat :: !(y in list && y in free)
    ensures i > 0 ==> list[i - 1] < |cells|
    ensures var cells2 := Linked(cells, list, c, i, x);
            var list1 := list[..i] + [c] + list[i..];
            && Chain(cells2, if i == 0 then c else head, list1) && Chain(cells2, freelist, free)
            && Items(cells2, list1) == Items(cells, list)[..i] + [x] + Items(cells, list)[i..]
  {
    assert i > 0 ==> list[i - 1] in list;
    ChainElsewhere(cells, Linked(cells, list, c, i, x), freelist, free);
    LinkChain(cells, head, list, c, i, x);
    LinkItems(cells, list, c, i, x);
  }

  lemma LinkChain(cells: seq<Cell>, head: int, list: seq<nat>, c: nat, i: nat, x: Item)
    requires Chain(cells, head, list) && NoDup(list) && c < |cells| && c !in list && i <= |list|
    ensures i > 0 ==> list[i - 1] < |cells|
    ensures Chain(Linked(cells, list, c, i, x), if i == 0 then c else head, list[..i] + [c] + list[i..])
  {
    hide At;
    var cells2 := Linked(cells, list, c, i, x);
    var list1 := list[..i] + [c] + list[i..];
    AtInsert(list, c, i, 0);
    forall k | 0 <= k < |list1|
      ensures list1[k] < |cells2| && cells2[list1[k]].next == At(list1, k + 1)
    {
      AtInsert(list, c, i, k);
      AtInsert(list, c, i, k + 1);
      if k < i {
        assert list[k] in list && (list[k] == list[i - 1] ==> k == i - 1);
      } else if k > i {
        assert list[k - 1] in list && (i > 0 ==> list[k - 1] != list[i - 1]);
      }
    }
  }

  lemma AtInsert(list: seq<nat>, c: nat, i: nat, m: nat)
    requires i <= |list|
    ensures var list1 := list[..i] + [c] + list[i..];
            && At(list1, m) == (if m < i then At(list, m) else if m == i then c else At(list, m - 1))
            && (m < |list1| ==> list1[m] == if m < i then list[m] else if m == i then c else list[m - 1])
  {
  }

  lemma LinkItems(cells: seq<Cell>, list: seq<nat>, c: nat, i: nat, x: Item)
    requires NoDup(list) && c < |cells| && c !in list && i <= |list| && (i > 0 ==> list[i - 1] < |cells|)
    ensures Items(Linked(cells, list, c, i, x), list[..i] + [c] + list[i..])
            == Items(cells, list)[..i] + [x] + Items(cells, list)[i..]
  {
    var cells2 := Linked(cells, list, c, i, x);
    var list1 := list[..i] + [c] + list[i..];
    var q := Items(cells, list)[..i] + [x] + Items(cells, list)[i..];
    forall k | 0 <= k < |list1|
      ensures Items(cells2, list1)[k] == q[k]
    {
      if k < i {
        assert list1[k] == list[k] && list[k] in list;
      } else if k > i {
        assert list1[k] == list[k - 1] && list[k - 1] in list;
      }
    }
  }

  lemma ShareIn(list: seq<nat>, free: seq<nat>, unused: nat, c: nat, i: nat)
    requires NoDup(list) && NoDup(free) && c !in list && c !in free && i <= |list|
    requires forall y: nat :: !(y in list && y in free)
    requires forall y: nat :: (y in list || y in free || y == c) <==> y < unused
    ensures Shared(list[..i] + [c] + list[i..], free, unused)
  {
    var list1 := list[..i] + [c] + list[i..];
    InsertNoDup(list, i, c);
    assert list == list[..i] + list[i..];
    assert forall y: nat :: y in list1 <==> y in list || y == c;
  }

  /** Moving the head of the list to the free list: the cells afterwards. */
  lemma GiveBack(cells: seq<Cell>, list: seq<nat>, freelist: int, free: seq<nat>) returns (cells1: seq<Cell>)
    requires list != [] && Chain(cells, At(list, 0), list) && Chain(cells, freelist, free) && NoDup(list)
    requires list[0] !in free
    ensures list[0] < |cells| && cells1 == cells[list[0] := cells[list[0]].(next := freelist)]
    ensures forall k :: 0 <= k < |list| ==> list[k] < |cells|
    ensures Chain(cells1, At(list, 1), list[1..]) && Chain(cells1, list[0], [list[0]] + free)
    ensures [cells[list[0]].item] + Items(cells1, list[1..]) == Items(cells, list)
  {
    hide Items;
    var c := list[0];
    cells1 := cells[c := cells[c].(next := freelist)];
    RestChain(cells, list);
    ChainElsewhere(cells, cells1, At(list, 1), list[1..]);
    PushFree(cells, freelist, free, c);
    HeadItem(cells, list);
  }

  lemma HeadItem(cells: seq<Cell>, list: seq<nat>)
    requires list != [] && list[0] < |cells|
    ensures [cells[list[0]].item] + Items(cells, list[1..]) == Items(cells, list)
  {
  }

  lemma PushFree(cells: seq<Cell>, freelist: int, free: seq<nat>, c: nat)
    requires Chain(cells, freelist, free) && c < |cells| && c !in free
    ensures Chain(cells[c := cells[c].(next := freelist)], c, [c] + free)
  {
    hide Items;
    var cells1, free1 := cells[c := cells[c].(next := freelist)], [c] + free;
    ChainElsewhere(cells, cells1, freelist, free);
    forall k | 0 <= k < |free1|
      ensures free1[k] < |cells1| && cells1[free1[k]].next == At(free1, k + 1)
    {
      assert k > 0 ==> free1[k] == free[k - 1];
    }
  }

  lemma ShareBack(list: seq<nat>, free: seq<nat>, unused: nat)
    requires list != [] && Shared(list, free, unused)
    ensures list[0] !in free && NoDup(list)
    ensures Shared(list[1..], [list[0]] + free, unused)
  {
    assert list[0] in list && list[0] !in list[1..];
    assert forall y: nat :: y in list <==> y in list[1..] || y == list[0];
  }

  // ----- Sending and receiving ----------------------------------------------

  /** Nothing appears from nowhere or is forgotten; and as long as nothing was withdrawn and
      no sender overtook another, the data of each priority come out in the order in which
      they went in. */
  ghost predicate History(submitted: seq<Item>, delivered: seq<Item>, withdrawn: multiset<Item>, queued: seq<Item>,
                          offered: seq<Item>, inOrder: bool) {
    && multiset(submitted) == multiset(delivered) + withdrawn + multiset(queued) + multiset(offered)
    && (inOrder ==> forall p :: OfPri(submitted, p) == OfPri(delivered, p) + OfPri(queued, p) + OfPri(offered, p))
  }

  lemma {:induction false} OfPriSnoc(q: seq<Item>, x: Item, p: int)
    ensures OfPri(q + [x], p) == OfPri(q, p) + (if x.pri == p then [x] else [])
  {
    hide OfPri;
    NoneOf([], p);
    if q == [] {
      assert q + [x] == [x] + [];
      OfPriCons(x, [], p);
    } else {
      var r := q[1..];
      assert q == [q[0]] + r && q + [x] == [q[0]] + (r + [x]);
      OfPriCons(q[0], r, p);
      OfPriCons(q[0], r + [x], p);
      OfPriSnoc(r, x, p);
    }
  }

  lemma OfPriCons(x: Item, q: seq<Item>, p: int)
    ensures OfPri([x] + q, p) == (if x.pri == p then [x] else []) + OfPri(q, p)
  {
    assert ([x] + q)[1..] == q;
  }

  /** A datum goes into the queue, in front of no waiting sender. */
  lemma Enqueued(s: seq<Item>, d: seq<Item>, w: multiset<Item>, q: seq<Item>, o: bool, x: Item)
    requires History(s, d, w, q, [], o) && ByPriority(q)
    ensures History(s + [x], d, w, Insert(q, x), [], o)
  {
    hide OfPri, Insert, ByPriority;
    InsertBag(q, x);
    if o {
      forall p
        ensures OfPri(s + [x], p) == OfPri(d, p) + OfPri(Insert(q, x), p) + OfPri([], p)
      {
        OfPriSnoc(s, x, p);
        InsertStable(q, x, p);
        NoneOf([], p);
      }
    }
  }

  lemma Dequeued(s: seq<Item>, d: seq<Item>, w: multiset<Item>, q: seq<Item>, f: seq<Item>, o: bool, x: Item)
    requires History(s, d, w, [x] + q, f, o)
    ensures History(s, d + [x], w, q, f, o)
  {
    hide OfPri;
    if o {
      forall p
        ensures OfPri(s, p) == OfPri(d + [x], p) + OfPri(q, p) + OfPri(f, p)
      {
        OfPriSnoc(d, x, p);
        OfPriCons(x, q, p);
      }
    }
  }

  /** The first waiting sender's datum goes into the queue. */
  lemma Refilled(s: seq<Item>, d: seq<Item>, w: multiset<Item>, q: seq<Item>, f: seq<Item>, o: bool, x: Item)
    requires History(s, d, w, q, [x] + f, o) && ByPriority(q)
    ensures History(s, d, w, Insert(q, x), f, o)
  {
    hide OfPri, Insert, ByPriority;
    InsertBag(q, x);
    if o {
      forall p
        ensures OfPri(s, p) == OfPri(d, p) + OfPri(Insert(q, x), p) + OfPri(f, p)
      {
        OfPriCons(x, f, p);
        InsertStable(q, x, p);
      }
    }
  }

  /** A queue without capacity: the first waiting sender's datum is delivered. */
  lemma HandedOver(s: seq<Item>, d: seq<Item>, w: multiset<Item>, f: seq<Item>, o: bool, x: Item)
    requires History(s, d, w, [], [x] + f, o)
    ensures History(s, d + [x], w, [], f, o)
  {
    hide OfPri;
    if o {
      forall p
        ensures OfPri(s, p) == OfPri(d + [x], p) + OfPri([], p) + OfPri(f, p)
      {
        NoneOf([], p);
        OfPriSnoc(d, x, p);
        OfPriCons(x, f, p);
      }
    }
  }

  /** A datum goes straight to a waiting receiver. */
  lemma Passed(s: seq<Item>, d: seq<Item>, w: multiset<Item>, o: bool, x: Item)
    requires History(s, d, w, [], [], o)
    ensures History(s + [x], d + [x], w, [], [], o)
  {
    hide OfPri;
    if o {
      forall p
        ensures OfPri(s + [x], p) == OfPri(d + [x], p) + OfPri([], p) + OfPri([], p)
      {
        NoneOf([], p);
        OfPriSnoc(s, x, p);
        OfPriSnoc(d, x, p);
      }
    }
  }

  /** A sender joins those who wait; at the end, it keeps the order. */
  lemma Offers(s: seq<Item>, d: seq<Item>, w: multiset<Item>, q: seq<Item>, f: seq<Item>, o: bool, x: Item, f1: seq<Item>)
    requires History(s, d, w, q, f, o) && multiset(f1) == multiset(f) + multiset{x}
    ensures History(s + [x], d, w, q, f1, o && f1 == f + [x])
  {
    hide OfPri;
    if o && f1 == f + [x] {
      forall p
        ensures OfPri(s + [x], p) == OfPri(d, p) + OfPri(q, p) + OfPri(f1, p)
      {
        OfPriSnoc(s, x, p);
        OfPriSnoc(f, x, p);
      }
    }
  }

  lemma Reordered(s: seq<Item>, d: seq<Item>, w: multiset<Item>, q: seq<Item>, f: seq<Item>, o: bool, f1: seq<Item>)
    requires History(s, d, w, q, f, o) && multiset(f1) == multiset(f)
    ensures History(s, d, w, q, f1, o && f1 == f)
  {
  }

  lemma Withdrawn(s: seq<Item>, d: seq<Item>, w: multiset<Item>, q: seq<Item>, f: seq<Item>, o: bool, l: multiset<Item>,
                  q1: seq<Item>, f1: seq<Item>)
    requires History(s, d, w, q, f, o) && multiset(q) + multiset(f) == multiset(q1) + multiset(f1) + l
    ensures History(s, d, w + l, q1, f1, o && q1 == q && f1 == f)
  {
    hide OfPri;
    var dm, qf := multiset(d), multiset(q1) + multiset(f1);
    assert dm + w + multiset(q) + multiset(f) == dm + w + (multiset(q) + multiset(f));
    assert dm + (w + l) + multiset(q1) + multiset(f1) == dm + w + (qf + l);
  }

  class PriDataq {
    const st: Storage
    const tpri: bool
    const maxdpri: int
    var swait: seq<Waiter<Item>>
    var rwait: seq<nat>
    var priority: seq<nat>            // the current priorities of the tasks

    ghost var submitted: seq<Item>    // what tasks and handlers gave to the queue, in order
    ghost var delivered: seq<Item>    // what receivers got, in order
    ghost var withdrawn: multiset<Item>
    ghost var inOrder: bool           // nothing was withdrawn, and no sender overtook another

    ghost predicate Valid()
      reads this, st, st.mb
    {
      && st.Valid()
      && QueueOk(TskIds(swait), tpri, priority) && NoDup(rwait)
      && (swait != [] ==> st.count == st.mb.Length)
      && (rwait != [] ==> st.count == 0 && swait == [])
      && History(submitted, delivered, withdrawn, st.Contents(), Infos(swait), inOrder)
    }

    constructor (pdqcnt: nat, tpri: bool, maxdpri: int, priority: seq<nat>)
      ensures Valid() && inOrder && fresh(st) && fresh(st.mb)
      ensures st.mb.Length == pdqcnt && st.Contents() == [] && swait == [] && rwait == []
      ensures this.tpri == tpri && this.maxdpri == maxdpri && this.priority == priority
    {
      st := new Storage(pdqcnt);
      this.tpri, this.maxdpri, this.priority := tpri, maxdpri, priority;
      swait, rwait := [], [];
      submitted, delivered, withdrawn, inOrder := [], [], multiset{}, true;
      NobodyWaits<Item>(tpri, priority);
    }

    lemma CountIsLength()
      requires st.Valid()
      ensures st.count == |st.Contents()| <= st.mb.Length && ByPriority(st.Contents())
    {
      StorageSize(st.list, st.free, st.unused, st.mb.Length);
    }

    /** send_pridata: to the first waiting receiver, or into the queue. */
    method SendPridata(x: Item) returns (sent: bool, woken: Option<nat>)
      requires Valid()
      modifies `rwait, `submitted, `delivered, st, st.mb
      ensures Valid()
      ensures sent <==> old(rwait) != [] || |old(st.Contents())| < st.mb.Length
      ensures old(rwait) != [] ==>
                && woken == Some(old(rwait)[0]) && rwait == old(rwait)[1..]
                && st.Contents() == old(st.Contents()) && delivered == old(delivered) + [x]
      ensures old(rwait) == [] ==> woken == None && rwait == [] && delivered == old(delivered)
      ensures old(rwait) == [] && sent ==> st.Contents() == Insert(old(st.Contents()), x)
      ensures !sent ==> st.Contents() == old(st.Contents())
      ensures submitted == old(submitted) + if sent then [x] else []
    {
      hide QueueOk, NoDup, Insert, Storage.Valid, Items, History, TskIds, ByPriority;
      CountIsLength();
      woken := None;
      if rwait != [] {
        var t := HandToReceiver(x);
        return true, Some(t);
      }
      if st.count < st.mb.Length {
        NobodyWaits<Item>(tpri, priority);
        Enqueued(submitted, delivered, withdrawn, st.Contents(), inOrder, x);
        st.Enqueue(x.data, x.pri);
        submitted := submitted + [x];
        return true, woken;
      }
      return false, woken;
    }

    /** An item goes straight to the first waiting receiver. */
    method HandToReceiver(x: Item) returns (woken: nat)
      requires Valid() && rwait != []
      modifies `rwait, `submitted, `delivered
      ensures Valid() && woken == old(rwait)[0] && rwait == old(rwait)[1..]
      ensures submitted == old(submitted) + [x] && delivered == old(delivered) + [x]
    {
      hide QueueOk, NoDup, Storage.Valid, Items, History, TskIds;
      CountIsLength();
      NobodyWaits<Item>(tpri, priority);
      Passed(submitted, delivered, withdrawn, inOrder, x);
      woken := rwait[0];
      TailNoDup(rwait);
      rwait := rwait[1..];
      submitted, delivered := submitted + [x], delivered + [x];
    }

    /** receive_pridata: from the queue, which the first waiting sender then refills, or
        from the first waiting sender. */
    method ReceivePridata() returns (got: bool, x: Item, woken: Option<nat>)
      requires Valid()
      modifies `swait, `delivered, st, st.mb
      ensures Valid()
      ensures got <==> old(st.Contents()) != [] || old(swait) != []
      ensures got ==> delivered == old(delivered) + [x]
      ensures got && old(st.Contents()) != [] ==> x == old(st.Contents())[0]
      ensures got && old(st.Contents()) == [] ==> x == old(swait)[0].info && st.Contents() == []
      ensures got && old(swait) != [] ==> woken == Some(old(swait)[0].tsk) && swait == old(swait)[1..]
      ensures old(swait) == [] ==> woken == None && swait == []
      ensures got && old(st.Contents()) != [] ==>
                var rest := old(st.Contents())[1..];
                st.Contents() == if old(swait) == [] then rest else Insert(rest, old(swait)[0].info)
      ensures !got ==> st.Contents() == old(st.Contents()) && delivered == old(delivered) && woken == None
    {
      hide QueueOk, NoDup, Insert, Storage.Valid, Items, History, TskIds;
      CountIsLength();
      if st.count > 0 {
        x, woken := TakeFromQueue();
        return true, x, woken;
      }
      if swait != [] {
        x, woken := TakeFromSender();
        return true, x, woken;
      }
      return false, Item(0, 0), None;
    }

    /** The first case of receive_pridata. */
    method TakeFromQueue() returns (x: Item, woken: Option<nat>)
      requires Valid() && st.count > 0
      modifies `swait, `delivered, st, st.mb
      ensures Valid() && delivered == old(delivered) + [x]
      ensures old(st.Contents()) != [] && x == old(st.Contents())[0]
      ensures var rest := old(st.Contents())[1..];
              if old(swait) == [] then woken == None && swait == [] && st.Contents() == rest
              else woken == Some(old(swait)[0].tsk) && swait == old(swait)[1..]
                   && st.Contents() == Insert(rest, old(swait)[0].info)
    {
      hide QueueOk, NoDup, Insert, Storage.Valid, Items, History, TskIds, ByPriority;
      CountIsLength();
      ghost var q := st.Contents();
      var data, datapri := st.Dequeue();
      CountIsLength();
      x := Item(data, datapri);
      assert q[1..] == st.Contents();
      Dequeued(submitted, delivered, withdrawn, st.Contents(), Infos(swait), inOrder, x);
      delivered := delivered + [x];
      woken := Refill();
    }

    /** The part of receive_pridata that moves the first waiting sender's item into the queue. */
    method Refill() returns (woken: Option<nat>)
      requires st.Valid() && QueueOk(TskIds(swait), tpri, priority) && NoDup(rwait) && rwait == []
      requires History(submitted, delivered, withdrawn, st.Contents(), Infos(swait), inOrder)
      requires |st.Contents()| < st.mb.Length && (swait != [] ==> |st.Contents()| + 1 == st.mb.Length)
      modifies `swait, st, st.mb
      ensures Valid()
      ensures if old(swait) == [] then woken == None && swait == [] && st.Contents() == old(st.Contents())
              else woken == Some(old(swait)[0].tsk) && swait == old(swait)[1..]
                   && st.Contents() == Insert(old(st.Contents()), old(swait)[0].info)
    {
      hide QueueOk, NoDup, Insert, Storage.Valid, Items, History, TskIds, ByPriority;
      CountIsLength();
      woken := None;
      if swait != [] {
        HeadLeaves(swait, tpri, priority);
        Refilled(submitted, delivered, withdrawn, st.Contents(), Infos(swait[1..]), inOrder, swait[0].info);
        st.Enqueue(swait[0].info.data, swait[0].info.pri);
        CountIsLength();
        woken := Some(swait[0].tsk);
        swait := swait[1..];
      }
    }

    /** The second case of receive_pridata: a queue without capacity. */
    method TakeFromSender() returns (x: Item, woken: Option<nat>)
      requires Valid() && swait != [] && st.count == 0
      modifies `swait, `delivered
      ensures Valid() && x == old(swait)[0].info && woken == Some(old(swait)[0].tsk) && swait == old(swait)[1..]
      ensures delivered == old(delivered) + [x]
    {
      hide QueueOk, NoDup, Storage.Valid, Items, History, TskIds;
      CountIsLength();
      HeadLeaves(swait, tpri, priority);
      x := swait[0].info;
      HandedOver(submitted, delivered, withdrawn, Infos(swait[1..]), inOrder, x);
      woken := Some(swait[0].tsk);
      swait := swait[1..];
      delivered := delivered + [x];
    }

    /** The waiting branch of snd_pdq, after send_pridata could not send. */
    method WaitToSend(t: nat, x: Item)
      requires Valid() && rwait == [] && |st.Contents()| == st.mb.Length && t !in TskIds(swait)
      modifies `swait, `submitted, `inOrder
      ensures Valid() && submitted == old(submitted) + [x]
      ensures TskIds(swait) == Joined(TskIds(old(swait)), tpri, priority, t)
      ensures multiset(swait) == multiset(old(swait)) + multiset{Waiter(t, x)}
      ensures !tpri ==> inOrder == old(inOrder)
    {
      hide Joined, QueueOk, NoDup, Storage.Valid, Items, History, TskIds, Infos;
      CountIsLength();
      ghost var q := swait;
      swait := Join(swait, tpri, priority, Waiter(t, x));
      Offers(submitted, delivered, withdrawn, st.Contents(), Infos(q), inOrder, x, Infos(swait));
      LastOffered(q, Waiter(t, x));
      inOrder := inOrder && Infos(swait) == Infos(q) + [x];
      submitted := submitted + [x];
    }

    /** wobj_change_priority: the priority of task `t` has become `p`. */
    method ChangePriority(t: nat, p: nat)
      requires Valid() && t < |priority|
      modifies `swait, `priority, `inOrder
      ensures Valid() && priority == old(priority)[t := p]
      ensures TskIds(swait) == Moved(TskIds(old(swait)), tpri, priority, t) && multiset(swait) == multiset(old(swait))
      ensures !tpri ==> swait == old(swait) && inOrder == old(inOrder)
    {
      hide Moved, QueueOk, NoDup, Storage.Valid, Items, History, TskIds, Infos;
      ghost var q := swait;
      swait := Move(swait, tpri, priority, t, p);
      priority := priority[t := p];
      SameSize(q, swait);
      Reordered(submitted, delivered, withdrawn, st.Contents(), Infos(q), inOrder, Infos(swait));
      inOrder := inOrder && Infos(swait) == Infos(q);
    }

    /** The waiting branch of rcv_pdq, after receive_pridata found nothing: always in FIFO order. */
    method WaitToReceive(t: nat)
      requires Valid() && st.Contents() == [] && swait == [] && t !in rwait
      modifies `rwait
      ensures Valid() && rwait == old(rwait) + [t]
    {
      hide Storage.Valid, Items, History, QueueOk;
      CountIsLength();
      rwait := rwait + [t];
    }

    /** snd_pdq (with TMO_FEVR) and tsnd_pdq. */
    method SndPdq(t: nat, x: Item, tmo: Tmo, dspflg: bool, waifbd: bool) returns (ret: Ret, woken: Option<nat>)
      requires Valid() && t !in TskIds(swait)
      modifies `swait, `rwait, `submitted, `delivered, `inOrder, st, st.mb
      ensures Valid()
      ensures ret == if !dspflg then Ret(E_CTX)
                     else if tmo < TMO_FEVR || !(TMIN_DPRI <= x.pri <= maxdpri) then Ret(E_PAR)
                     else if old(rwait) != [] || |old(st.Contents())| < st.mb.Length then Ret(E_OK)
                     else if tmo == TMO_POL then Ret(E_TMOUT)
                     else if waifbd then Ret(E_RLWAI)
                     else Ret.Blocks
      ensures submitted == old(submitted) + (if ret.Blocks? || ret == Ret(E_OK) then [x] else [])
      ensures !tpri ==> inOrder == old(inOrder)
      ensures ret == Ret(E_OK) && old(rwait) != [] ==>
                woken == Some(old(rwait)[0]) && rwait == old(rwait)[1..] && delivered == old(delivered) + [x]
      ensures ret == Ret(E_OK) && old(rwait) == [] ==>
                woken == None && delivered == old(delivered) && st.Contents() == Insert(old(st.Contents()), x)
      ensures ret != Ret(E_OK) ==>
                woken == None && delivered == old(delivered) && st.Contents() == old(st.Contents()) && rwait == old(rwait)
      ensures if ret.Blocks? then TskIds(swait) == Joined(TskIds(old(swait)), tpri, priority, t) else swait == old(swait)
    {
      hide Joined, QueueOk, NoDup, Insert, Storage.Valid, Items, History, TskIds;
      if !dspflg {
        return Ret(E_CTX), None;
      }
      if tmo < TMO_FEVR || !(TMIN_DPRI <= x.pri) || !(x.pri <= maxdpri) {
        return Ret(E_PAR), None;
      }
      CountIsLength();
      var sent;
      sent, woken := SendPridata(x);
      if sent {
        return Ret(E_OK), woken;
      }
      if tmo == TMO_POL {
        return Ret(E_TMOUT), None;
      }
      if waifbd {
        return Ret(E_RLWAI), None;
      }
      CountIsLength();
      WaitToSend(t, x);
      return Ret.Blocks, None;
    }

    /** psnd_pdq and ipsnd_pdq, which never wait. */
    method PsndPdq(x: Item) returns (ret: Ret, woken: Option<nat>)
      requires Valid()
      modifies `rwait, `submitted, `delivered, st, st.mb
      ensures Valid()
      ensures ret == if !(TMIN_DPRI <= x.pri <= maxdpri) then Ret(E_PAR)
                     else if old(rwait) != [] || |old(st.Contents())| < st.mb.Length then Ret(E_OK)
                     else Ret(E_TMOUT)
      ensures submitted == old(submitted) + (if ret == Ret(E_OK) then [x] else [])
      ensures if ret == Ret(E_OK) && old(rwait) != []
              then woken == Some(old(rwait)[0]) && rwait == old(rwait)[1..] && delivered == old(delivered) + [x]
              else woken == None && rwait == old(rwait) && delivered == old(delivered)
      ensures st.Contents() == if ret == Ret(E_OK) && old(rwait) == [] then Insert(old(st.Contents()), x) else old(st.Contents())
    {
      hide QueueOk, NoDup, Insert, Storage.Valid, Items, History, TskIds;
      if !(TMIN_DPRI <= x.pri) || !(x.pri <= maxdpri) {
        return Ret(E_PAR), None;
      }
      var sent;
      sent, woken := SendPridata(x);
      ret := if sent then Ret(E_OK) else Ret(E_TMOUT);
    }

    /** rcv_pdq (with TMO_FEVR) and trcv_pdq. */
    method RcvPdq(t: nat, tmo: Tmo, dspflg: bool, waifbd: bool) returns (ret: Ret, x: Item, woken: Option<nat>)
      requires Valid() && t !in rwait
      modifies `swait, `rwait, `delivered, st, st.mb
      ensures Valid()
      ensures ret == if !dspflg then Ret(E_CTX)
                     else if tmo < TMO_FEVR then Ret(E_PAR)
                     else if old(st.Contents()) != [] || old(swait) != [] then Ret(E_OK)
                     else if tmo == TMO_POL then Ret(E_TMOUT)
                     else if waifbd then Ret(E_RLWAI)
                     else Ret.Blocks
      ensures ret == Ret(E_OK) ==>
                && delivered == old(delivered) + [x]
                && x == (if old(st.Contents()) != [] then old(st.Contents())[0] else old(swait)[0].info)
                && woken == (if old(swait) != [] then Some(old(swait)[0].tsk) else None)
                && swait == (if old(swait) != [] then old(swait)[1..] else [])
                && st.Contents() == (if old(st.Contents()) == [] then []
                                     else if old(swait) == [] then old(st.Contents())[1..]
                                     else Insert(old(st.Contents())[1..], old(swait)[0].info))
      ensures ret != Ret(E_OK) ==>
                woken == None && delivered == old(delivered) && st.Contents() == old(st.Contents()) && swait == old(swait)
      ensures rwait == old(rwait) + (if ret.Blocks? then [t] else [])
    {
      hide QueueOk, NoDup, Insert, Storage.Valid, Items, History, TskIds;
      x, woken := Item(0, 0), None;
      if !dspflg {
        return Ret(E_CTX), x, woken;
      }
      if tmo < TMO_FEVR {
        return Ret(E_PAR), x, woken;
      }
      NeverTogether();
      var got;
      got, x, woken := ReceivePridata();
      if got {
        return Ret(E_OK), x, woken;
      }
      if tmo == TMO_POL {
        return Ret(E_TMOUT), x, woken;
      }
      if waifbd {
        return Ret(E_RLWAI), x, woken;
      }
      WaitToReceive(t);
      return Ret.Blocks, x, woken;
    }

    /** Where a receiver waits there is nothing to receive. */
    lemma NeverTogether()
      requires Valid()
      ensures rwait != [] ==> st.Contents() == [] && swait == []
    {
      CountIsLength();
    }

    /** prcv_pdq, which never waits. */
    method PrcvPdq() returns (ret: Ret, x: Item, woken: Option<nat>)
      requires Valid()
      modifies `swait, `delivered, st, st.mb
      ensures Valid()
      ensures ret == if old(st.Contents()) != [] || old(swait) != [] then Ret(E_OK) else Ret(E_TMOUT)
      ensures if ret == Ret(E_OK)
              then && delivered == old(delivered) + [x]
                   && x == (if old(st.Contents()) != [] then old(st.Contents())[0] else old(swait)[0].info)
                   && woken == (if old(swait) != [] then Some(old(swait)[0].tsk) else None)
                   && swait == (if old(swait) != [] then old(swait)[1..] else [])
                   && st.Contents() == (if old(st.Contents()) == [] then []
                                        else if old(swait) == [] then old(st.Contents())[1..]
                                        else Insert(old(st.Contents())[1..], old(swait)[0].info))
              else woken == None && delivered == old(delivered) && st.Contents() == old(st.Contents()) && swait == old(swait)
    {
      hide QueueOk, NoDup, Insert, Storage.Valid, Items, History, TskIds;
      var got;
      got, x, woken := ReceivePridata();
      ret := if got then Ret(E_OK) else Ret(E_TMOUT);
    }

    /** A waiting receiver gives up: timeout, rel_wai or ter_tsk. */
    method ReceiverGivesUp(t: nat)
      requires Valid() && t in rwait
      modifies `rwait
      ensures Valid() && rwait == Remove(old(rwait), t)
    {
      hide Storage.Valid, Items, History, QueueOk;
      RemoveNoDup(rwait, t);
      rwait := Remove(rwait, t);
    }

    /** A waiting sender gives up: timeout, rel_wai or ter_tsk. */
    method SenderGivesUp(i: nat)
      requires Valid() && i < |swait|
      modifies `swait, `withdrawn, `inOrder
      ensures Valid() && swait == old(swait)[..i] + old(swait)[i + 1..]
      ensures withdrawn == old(withdrawn) + multiset{old(swait)[i].info}
    {
      hide Storage.Valid, Items, QueueOk, NoDup, History, TskIds, Infos;
      ghost var q, x := swait, swait[i].info;
      LeavesAt(swait, i);
      LeavesOk(swait, i, tpri, priority);
      swait := swait[..i] + swait[i + 1..];
      Withdrawn(submitted, delivered, withdrawn, st.Contents(), Infos(q), inOrder, multiset{x}, st.Contents(), Infos(swait));
      withdrawn, inOrder := withdrawn + multiset{x}, inOrder && Infos(swait) == Infos(q);
    }

    /** ini_pdq: everybody who waits is woken with E_DLT, senders first, and the storage
        starts afresh. */
    method InitPdq() returns (woken: seq<nat>)
      requires Valid()
      modifies `swait, `rwait, `withdrawn, `inOrder, st
      ensures Valid() && st.Contents() == [] && swait == [] && rwait == [] && st.unused == 0
      ensures woken == TskIds(old(swait)) + old(rwait)
      ensures withdrawn == old(withdrawn) + multiset(old(st.Contents())) + multiset(Infos(old(swait)))
    {
      hide NoDup, Storage.Valid, Items, QueueOk, History;
      ghost var q, f := st.Contents(), Infos(swait);
      Withdrawn(submitted, delivered, withdrawn, q, f, inOrder, multiset(q) + multiset(f), [], []);
      withdrawn, inOrder := withdrawn + (multiset(q) + multiset(f)), inOrder && q == [] && f == [];
      woken := TskIds(swait) + rwait;
      swait, rwait := [], [];
      st.Reset();
      NobodyWaits<Item>(tpri, priority);
      assert NoDup(rwait) by { NoDupNone(); }
    }

    lemma NoDupNone()
      ensures NoDup<nat>([])
    {
    }
  }

  lemma LastOffered(q: seq<Waiter<Item>>, w: Waiter<Item>)
    ensures Infos(q + [w]) == Infos(q) + [w.info]
  {
  }

  // ----- Facts about the storage --------------------------------------------

  lemma StorageSize(list: seq<nat>, free: seq<nat>, unused: nat, n: nat)
    requires Shared(list, free, unused) && unused <= n
    ensures |list| <= n
  {
    NoDupSize(list);
    SubsetCard(Elems(list), UpTo(unused));
  }

  lemma {:induction false} NoDupSize(list: seq<nat>)
    requires NoDup(list)
    ensures |Elems(list)| == |list|
  {
    if list != [] {
      NoDupSize(list[1..]);
      assert Elems(list) == Elems(list[1..]) + {list[0]};
      assert list[0] !in Elems(list[1..]);
    }
  }
}
