/** syssvc/serial.c: writers, readers and interrupt callbacks that share two character
    buffers.  A binary semaphore of the kernel serves as a token: whoever holds it may put
    a character into the send buffer (or take one from the receive buffer), and while the
    buffer is full (or empty) nobody holds it.  The code between two points where tasks
    can be switched is one step; each writer and reader keeps its place in the code. */
module Serial {
  import opened OrderedList
  import opened KernelSpec
  import opened DataQueue

  // ----- Counting the holders of a token ------------------------------------

  function Count(p: seq<bool>): nat {
    if p == [] then 0 else (if p[0] then 1 else 0) + Count(p[1..])
  }

  function One(b: bool): nat {
    if b then 1 else 0
  }

  lemma {:induction false} CountUpdate(p: seq<bool>, t: nat, x: bool)
    requires t < |p|
    ensures Count(p[t := x]) + One(p[t]) == Count(p) + One(x)
  {
    if t == 0 {
      assert p[0 := x][1..] == p[1..];
    } else {
      assert p[t := x][1..] == p[1..][t - 1 := x];
      CountUpdate(p[1..], t - 1, x);
    }
  }

  lemma {:induction false} CountOne(p: seq<bool>, t: nat)
    requires t < |p| && p[t]
    ensures Count(p) >= 1
    ensures Count(p) == 1 ==> forall u :: 0 <= u < |p| && u != t ==> !p[u]
  {
    CountUpdate(p, t, false);
    var q := p[t := false];
    if Count(q) == 0 {
      CountZero(q);
      assert forall u :: 0 <= u < |p| && u != t ==> p[u] == q[u];
    }
  }

  lemma {:induction false} CountZero(p: seq<bool>)
    requires Count(p) == 0
    ensures forall u :: 0 <= u < |p| ==> !p[u]
  {
    if p != [] {
      CountZero(p[1..]);
      assert forall u :: 0 < u < |p| ==> p[u] == p[1..][u - 1];
    }
  }

  // ----- The token ----------------------------------------------------------

  // A semaphore: its count, and the tasks that wait for it.
  datatype Sem = Sem(cnt: nat, wait: seq<nat>)

  /** sig_sem on a binary semaphore, and its answer. */
  function Signal(s: Sem): (Sem, Er) {
    if s.wait != [] then (Sem(s.cnt, s.wait[1..]), E_OK)
    else if s.cnt < 1 then (Sem(s.cnt + 1, []), E_OK)
    else (s, E_QOVR)
  }

  /** wai_sem by task `t`, whose place in the queue is `at` should it have to wait. */
  function Await(s: Sem, t: nat, at: nat): Sem
    requires at <= |s.wait|
  {
    if s.cnt >= 1 then Sem(s.cnt - 1, s.wait) else Sem(s.cnt, s.wait[..at] + [t] + s.wait[at..])
  }

  /** rel_wai on a task that waits for the semaphore. */
  function Release(s: Sem, t: nat): Sem {
    Sem(s.cnt, Remove(s.wait, t))
  }

  // ----- The character buffers ----------------------------------------------

  class CharBuffer {
    const bufsz: nat
    const buffer: array<char>
    var readPtr: nat
    var writePtr: nat
    var count: nat

    ghost predicate Valid()
      reads this
    {
      bufsz == buffer.Length > 0 && RingOk(bufsz, readPtr, writePtr, count)
    }

    ghost function Data(): seq<char>
      reads this, buffer
      requires Valid()
    {
      RingData(buffer[..], readPtr, count)
    }

    constructor (bufsz: nat)
      requires bufsz > 0
      ensures Valid() && count == 0 && Data() == [] && this.bufsz == bufsz && fresh(buffer)
    {
      this.bufsz := bufsz;
      buffer := new char[bufsz](_ => '\0');
      readPtr, writePtr, count := 0, 0, 0;
    }

    method Put(c: char)
      requires Valid() && count < bufsz
      modifies `writePtr, `count, buffer
      ensures Valid() && Data() == old(Data()) + [c] && count == old(count) + 1
    {
      hide RingData;
      buffer[writePtr] := c;
      writePtr := writePtr + 1;
      if writePtr == bufsz {
        writePtr := 0;
      }
      count := count + 1;
    }

    method Take() returns (c: char)
      requires Valid() && count > 0
      modifies `readPtr, `count
      ensures Valid() && old(Data()) == [c] + Data() && count == old(count) - 1
    {
      hide RingData;
      c := buffer[readPtr];
      readPtr := readPtr + 1;
      if readPtr == bufsz {
        readPtr := 0;
      }
      count := count - 1;
    }
  }

  // ----- Sending ------------------------------------------------------------

  // Where a writer stands in _serial_wri_dat and serial_wri_chr.
  datatype Writer =
    | Idle
    | Top(buf: seq<char>, cnt: nat, full: bool)  // at the head of the loop
    | Chr(buf: seq<char>, cnt: nat)              // about to put the next character
    | LfSem(buf: seq<char>, cnt: nat)            // CR has filled the buffer: about to call wai_sem
    | Lf(buf: seq<char>, cnt: nat)               // CR is in, about to put LF
    | Wait(buf: seq<char>, cnt: nat, lf: bool)   // in the queue of the semaphore
    | Done(wricnt: nat, er: Er)
  {
    /** The writer has the token. */
    predicate Holds() {
      Chr? || Lf? || (Top? && !full)
    }

    predicate Ok() {
      match this
      case Top(b, c, _) => c <= |b|
      case Chr(b, c) => c < |b|
      case LfSem(b, c) => c < |b|
      case Lf(b, c) => c < |b|
      case Wait(b, c, _) => c < |b|
      case _ => true
    }

    predicate CanStep() {
      Top? || Chr? || LfSem? || Lf?
    }
  }

  /** The characters of a text on the line: with CR before each LF, if that is asked for. */
  function Expand(s: seq<char>, crlf: bool): seq<char> {
    if s == [] then [] else (if s[0] == '\n' && crlf then ['\r', '\n'] else [s[0]]) + Expand(s[1..], crlf)
  }

  /** The characters that a writer still has to put. */
  function Rest(w: Writer, crlf: bool): seq<char>
    requires w.Ok()
  {
    match w
    case Top(b, c, _) => Expand(b[c..], crlf)
    case Chr(b, c) => Expand(b[c..], crlf)
    case LfSem(b, c) => [b[c]] + Expand(b[c + 1..], crlf)
    case Lf(b, c) => [b[c]] + Expand(b[c + 1..], crlf)
    case Wait(b, c, lf) => if lf then [b[c]] + Expand(b[c + 1..], crlf) else Expand(b[c..], crlf)
    case _ => []
  }

  /** The characters that a writer puts in its next step. */
  function Puts(w: Writer, crlf: bool): seq<char>
    requires w.Ok()
  {
    match w
    case Chr(b, c) => if b[c] == '\n' && crlf then ['\r'] else [b[c]]
    case Lf(b, c) => [b[c]]
    case _ => []
  }

  /** Where a writer stands after its next step; `full`: the buffer is full then, `got`: the
      semaphore had a token. */
  function Next(w: Writer, crlf: bool, full: bool, got: bool): Writer
    requires w.Ok() && w.CanStep()
  {
    match w
    case Top(b, c, f) =>
      if c == |b| then Done(c, E_OK) else if !f || got then Chr(b, c) else Wait(b, c, false)
    case LfSem(b, c) => if got then Lf(b, c) else Wait(b, c, true)
    case Chr(b, c) =>
      if b[c] == '\n' && crlf then (if full then LfSem(b, c) else Lf(b, c)) else Top(b, c + 1, full)
    case Lf(b, c) => Top(b, c + 1, full)
  }

  /** A step puts the next of the characters that are left, and a writer that is done has
      put them all; getting a token changes nothing about them. */
  lemma WriterProgress(w: Writer, crlf: bool, full: bool, got: bool)
    requires w.Ok() && w.CanStep()
    ensures var w1 := Next(w, crlf, full, got);
            && w1.Ok() && Puts(w, crlf) + Rest(w1, crlf) == Rest(w, crlf)
            && (w1.Wait? ==> Rest(Resume(w1), crlf) == Rest(w1, crlf))
  {
    hide Expand;
    var b, c := w.buf, w.cnt;
    if c < |b| {
      PutsOne(b, c, crlf);
      assert [] + Expand(b[c..], crlf) == Expand(b[c..], crlf);
      assert ['\r'] + ([b[c]] + Expand(b[c + 1..], crlf)) == ['\r'] + [b[c]] + Expand(b[c + 1..], crlf);
      assert [] + ([b[c]] + Expand(b[c + 1..], crlf)) == [b[c]] + Expand(b[c + 1..], crlf);
    } else {
      assert b[c..] == [];
      NothingLeft(crlf);
    }
  }

  lemma NothingLeft(crlf: bool)
    ensures Expand([], crlf) == []
  {
  }

  /** A writer that gets the token it waited for. */
  function Resume(w: Writer): Writer
    requires w.Wait?
  {
    if w.lf then Lf(w.buf, w.cnt) else Chr(w.buf, w.cnt)
  }

  /** The line after each character has found its own setting of IOCTL_CRLF. */
  function ExpandBy(s: seq<char>, modes: seq<bool>): seq<char>
    requires |s| == |modes|
  {
    if s == [] then [] else (if s[0] == '\n' && modes[0] then ['\r', '\n'] else [s[0]]) + ExpandBy(s[1..], modes[1..])
  }

  /** Where the text has an LF that is to be preceded by CR. */
  function Breaks(s: seq<char>, modes: seq<bool>): seq<bool>
    requires |s| == |modes|
  {
    seq(|s|, i requires 0 <= i < |s| => s[i] == '\n' && modes[i])
  }

  /** Besides the text, the line has one CR for each such LF. */
  lemma {:induction false} LineLength(s: seq<char>, modes: seq<bool>)
    requires |s| == |modes|
    ensures |ExpandBy(s, modes)| == |s| + Count(Breaks(s, modes))
  {
    if s != [] {
      LineLength(s[1..], modes[1..]);
      assert Breaks(s, modes)[1..] == Breaks(s[1..], modes[1..]);
    }
  }

  /** The line has the characters of the text in their order, and right before each such LF
      a CR. */
  lemma {:induction false} OnTheLine(s: seq<char>, modes: seq<bool>, i: nat)
    requires |s| == |modes| && i < |s|
    ensures var line, b := ExpandBy(s, modes), Breaks(s, modes);
            var p := i + Count(b[..i + 1]);
            p < |line| && line[p] == s[i] && (b[i] ==> p > 0 && line[p - 1] == '\r')
    decreases i
  {
    var b := Breaks(s, modes);
    var b1 := Breaks(s[1..], modes[1..]);
    assert b[..i + 1][1..] == b1[..i];
    if i > 0 {
      OnTheLine(s[1..], modes[1..], i - 1);
      var line1 := ExpandBy(s[1..], modes[1..]);
      var head := if b[0] then ['\r', '\n'] else [s[0]];
      assert ExpandBy(s, modes) == head + line1;
      var p1 := i - 1 + Count(b1[..i]);
      assert (head + line1)[|head| + p1] == line1[p1];
    }
  }

  lemma {:induction false} ExpandSnoc(s: seq<char>, modes: seq<bool>, c: char, m: bool)
    requires |s| == |modes|
    ensures ExpandBy(s + [c], modes + [m]) == ExpandBy(s, modes) + (if c == '\n' && m then ['\r', '\n'] else [c])
  {
    if s == [] {
      assert s + [c] == [c] && modes + [m] == [m] && [c][1..] == [] && [m][1..] == [];
      assert ExpandBy([c][1..], [m][1..]) == [];
    } else {
      assert (s + [c])[1..] == s[1..] + [c] && (modes + [m])[1..] == modes[1..] + [m];
      ExpandSnoc(s[1..], modes[1..], c, m);
    }
  }

  /** If the setting does not change, that is the text on the line. */
  lemma {:induction false} ExpandSteady(s: seq<char>, modes: seq<bool>, crlf: bool)
    requires |s| == |modes| && forall i :: 0 <= i < |modes| ==> modes[i] == crlf
    ensures ExpandBy(s, modes) == Expand(s, crlf)
  {
    if s != [] {
      ExpandSteady(s[1..], modes[1..], crlf);
    }
  }

  // What a writer was given, the settings its characters found, and what it has put so far.
  datatype Log = Log(text: seq<char>, modes: seq<bool>, put: seq<char>)

  /** So far the writer has put the first `c` characters, and CR if `cr`. */
  predicate PutSoFar(g: Log, c: nat, cr: bool) {
    && c == |g.modes| <= |g.text|
    && (cr ==> c < |g.text| && g.text[c] == '\n')
    && g.put == ExpandBy(g.text[..c], g.modes) + (if cr then ['\r'] else [])
  }

  /** The log fits the place of the writer in the code. */
  predicate LogOk(w: Writer, g: Log) {
    match w
    case Idle => true
    case Top(b, c, _) => g.text == b && PutSoFar(g, c, false)
    case Chr(b, c) => g.text == b && PutSoFar(g, c, false)
    case LfSem(b, c) => g.text == b && PutSoFar(g, c, true)
    case Lf(b, c) => g.text == b && PutSoFar(g, c, true)
    case Wait(b, c, lf) => g.text == b && PutSoFar(g, c, lf)
    case Done(n, er) =>
      && (PutSoFar(g, n, false) || (PutSoFar(g, n, true) && er != E_OK))
      && (er == E_OK ==> n == |g.text|)
  }

  function NextLog(w: Writer, crlf: bool, g: Log): Log
    requires w.Ok()
  {
    var modes := match w
      case Chr(b, c) => if b[c] == '\n' && crlf then g.modes else g.modes + [crlf]
      case Lf(_, _) => g.modes + [true]
      case _ => g.modes;
    g.(modes := modes, put := g.put + Puts(w, crlf))
  }

  lemma LogStep(w: Writer, crlf: bool, full: bool, got: bool, g: Log)
    requires w.Ok() && w.CanStep() && LogOk(w, g)
    ensures LogOk(Next(w, crlf, full, got), NextLog(w, crlf, g))
  {
    hide ExpandBy;
    var c := w.cnt;
    if (w.Chr? || w.Lf?) && c < |g.text| {
      assert g.text[..c + 1] == g.text[..c] + [g.text[c]];
      ExpandSnoc(g.text[..c], g.modes, g.text[c], if w.Lf? then true else crlf);
    }
    assert g.text[..|g.text|] == g.text;
  }

  /** Getting the token, or being released, leaves the log as it is. */
  lemma LogWaits(w: Writer, g: Log)
    requires w.Wait? && w.Ok() && LogOk(w, g)
    ensures LogOk(Resume(w), g) && LogOk(Done(w.cnt, E_RLWAI), g)
  {
  }

  ghost predicate LogsOk(pc: seq<Writer>, log: seq<Log>) {
    |log| == |pc| && forall t {:trigger pc[t]} {:trigger log[t]} :: 0 <= t < |pc| ==> LogOk(pc[t], log[t])
  }

  lemma LogsStay(pc: seq<Writer>, pc1: seq<Writer>, log: seq<Log>, log1: seq<Log>, t: int)
    requires LogsOk(pc, log) && Others(pc, pc1, t) && |log1| == |log|
    requires forall u :: 0 <= u < |pc| ==> pc[u].Ok()
    requires forall u :: 0 <= u < |log| && u != t ==> log1[u] == log[u]
    requires 0 <= t < |pc| ==> LogOk(pc1[t], log1[t])
    ensures LogsOk(pc1, log1)
  {
    hide LogOk;
    forall u | 0 <= u < |pc1|
      ensures LogOk(pc1[u], log1[u])
    {
      if u != t && pc[u].Wait? {
        LogWaits(pc[u], log[u]);
      }
    }
  }

  /** Nothing happened to the other writers, except that one of them may have got a token. */
  ghost predicate Others(pc: seq<Writer>, pc1: seq<Writer>, t: int) {
    && |pc1| == |pc|
    && forall u {:trigger pc1[u]} :: 0 <= u < |pc| && u != t ==>
         pc1[u] == pc[u] || (pc[u].Wait? && pc1[u] == Resume(pc[u]))
  }

  lemma PutsOne(b: seq<char>, c: nat, crlf: bool)
    requires c < |b|
    ensures Expand(b[c..], crlf) == (if b[c] == '\n' && crlf then ['\r'] else []) + ([b[c]] + Expand(b[c + 1..], crlf))
  {
    assert b[c..][0] == b[c] && b[c..][1..] == b[c + 1..];
  }

  function Holding(pc: seq<Writer>): seq<bool> {
    seq(|pc|, t requires 0 <= t < |pc| => pc[t].Holds())
  }

  lemma HoldingUpdate(pc: seq<Writer>, t: nat, w: Writer)
    requires t < |pc|
    ensures Count(Holding(pc[t := w])) + One(pc[t].Holds()) == Count(Holding(pc)) + One(w.Holds())
  {
    assert Holding(pc[t := w]) == Holding(pc)[t := w.Holds()];
    CountUpdate(Holding(pc), t, w.Holds());
  }

  class SendSide {
    const ring: CharBuffer
    var stopped: bool

    var sem: nat            // the send semaphore, initially 1
    var wait: seq<nat>
    var pc: seq<Writer>

    ghost var written: seq<char>  // data characters in the order in which writers put them
    ghost var sent: seq<char>     // data characters in the order in which the device got them
    ghost var log: seq<Log>       // what each writer has done with its text

    ghost predicate RingValid()
      reads `written, `sent, ring, ring.buffer
    {
      ring.Valid() && written == sent + ring.Data()
    }

    /** Each waiting writer is in the queue, and nobody waits for a free token. */
    ghost predicate QueueValid()
      reads `sem, `wait, `pc
    {
      && sem <= 1 && NoDup(wait) && (wait != [] ==> sem == 0)
      && (forall t: nat {:trigger t in wait} :: t in wait <==> t < |pc| && pc[t].Wait?)
      && (forall t {:trigger pc[t]} :: 0 <= t < |pc| ==> pc[t].Ok())
    }

    /** How many tokens there are: in the semaphore, with writers, and in a full buffer. */
    ghost function Tokens(): nat
      reads `sem, `pc, ring
    {
      sem + Count(Holding(pc)) + One(ring.count == ring.bufsz)
    }

    ghost predicate Balanced()
      reads `written, `sent, `sem, `wait, `pc, ring, ring.buffer
    {
      RingValid() && QueueValid() && Tokens() == 1
    }

    ghost predicate Valid()
      reads this, ring, ring.buffer
    {
      Balanced() && LogsOk(pc, log)
    }

    constructor (bufsz: nat, ntsk: nat)
      requires bufsz > 0
      ensures Valid() && sem == 1 && ring.count == 0 && !stopped && fresh(ring) && fresh(ring.buffer)
      ensures ring.bufsz == bufsz && |pc| == ntsk && forall t :: 0 <= t < ntsk ==> pc[t].Idle?
    {
      ring := new CharBuffer(bufsz);
      stopped := false;
      sem, wait := 1, [];
      pc := seq(ntsk, _ => Idle);
      written, sent, log := [], [], seq(ntsk, _ => Log([], [], []));
      new;
      NobodyHolds(pc);
    }

    /** The locked part of serial_wri_chr.  `devOk`: the device takes the character. */
    method PutChr(c: char, devOk: bool) returns (full: bool)
      requires RingValid() && ring.count < ring.bufsz
      modifies `written, `sent, ring, ring.buffer
      ensures RingValid() && written == old(written) + [c]
      ensures full == (ring.count == ring.bufsz)
      ensures sent == old(sent) + (if old(ring.count) == 0 && !stopped && devOk then [c] else [])
      ensures ring.count == old(ring.count) + (if old(ring.count) == 0 && !stopped && devOk then 0 else 1)
    {
      ghost var q := ring.Data();
      if ring.count == 0 && !stopped && devOk {
        assert q == [];
        sent := sent + [c];
        full := false;
      } else {
        ring.Put(c);
        full := ring.count == ring.bufsz;
        assert sent + (q + [c]) == sent + q + [c];
      }
      written := written + [c];
    }

    /** The next character leaves the buffer for the device. */
    method TakeChr() returns (c: char)
      requires RingValid() && ring.count > 0
      modifies `sent, ring
      ensures RingValid() && sent == old(sent) + [c] && ring.count == old(ring.count) - 1
    {
      c := ring.Take();
      assert sent + ([c] + ring.Data()) == sent + [c] + ring.Data();
      sent := sent + [c];
    }

    /** sig_sem and isig_sem: the token goes to the first waiting writer, or back. */
    method SigSem() returns (er: Er)
      requires QueueValid() && sem == 0
      modifies `sem, `wait, `pc
      ensures QueueValid() && er == E_OK && |pc| == |old(pc)|
      ensures (Sem(sem, wait), er) == Signal(old(Sem(sem, wait)))
      ensures sem + Count(Holding(pc)) == old(Count(Holding(pc))) + 1
      ensures Others(old(pc), pc, -1)
    {
      if wait != [] {
        var u := wait[0];
        assert u in wait && u !in wait[1..] && forall t: nat :: t in wait <==> t == u || t in wait[1..];
        var w := Resume(pc[u]);
        HoldingUpdate(pc, u, w);
        pc := pc[u := w];
        wait := wait[1..];
        return E_OK;
      }
      if sem < 1 {
        sem := sem + 1;
        return E_OK;
      }
      return E_QOVR;
    }

    /** wai_sem by writer `t`; `at` is the place in the queue that its priority calls for. */
    method WaiSem(t: nat, lf: bool, at: nat)
      requires QueueValid() && t < |pc| && at <= |wait|
      requires if lf then pc[t].LfSem? else pc[t].Top? && pc[t].full && pc[t].cnt < |pc[t].buf|
      modifies `sem, `wait, `pc
      ensures QueueValid() && |pc| == |old(pc)| && Sem(sem, wait) == Await(old(Sem(sem, wait)), t, at)
      ensures sem + Count(Holding(pc)) == old(sem + Count(Holding(pc)))
      ensures var w := Wait(old(pc)[t].buf, old(pc)[t].cnt, lf);
              pc == old(pc)[t := if old(sem) >= 1 then Resume(w) else w]
    {
      var b, c := pc[t].buf, pc[t].cnt;
      if sem >= 1 {
        sem := sem - 1;
        var w := if lf then Lf(b, c) else Chr(b, c);
        HoldingUpdate(pc, t, w);
        pc := pc[t := w];
      } else {
        HoldingUpdate(pc, t, Wait(b, c, lf));
        InsertNoDup(wait, at, t);
        assert wait == wait[..at] + wait[at..];
        assert forall u: nat :: u in wait[..at] + [t] + wait[at..] <==> u in wait || u == t;
        wait := wait[..at] + [t] + wait[at..];
        pc := pc[t := Wait(b, c, lf)];
      }
    }

    /** A writer that has the token is the only one, and there is room for its character. */
    lemma HolderAlone(t: nat)
      requires Balanced() && t < |pc| && pc[t].Holds()
      ensures sem == 0 && ring.count < ring.bufsz && Count(Holding(pc)) == 1
      ensures forall u :: 0 <= u < |pc| && u != t ==> !pc[u].Holds()
    {
      assert Holding(pc)[t];
      CountOne(Holding(pc), t);
      assert forall u :: 0 <= u < |pc| ==> Holding(pc)[u] == pc[u].Holds();
    }

    /** The part of _serial_wri_dat before its loop. */
    method StartWriting(t: nat, buf: seq<char>)
      requires Valid() && t < |pc| && (pc[t].Idle? || pc[t].Done?)
      modifies `pc, `log
      ensures Valid() && pc == old(pc)[t := Top(buf, 0, true)] && log == old(log)[t := Log(buf, [], [])]
      ensures written == old(written) && sent == old(sent)
    {
      HoldingUpdate(pc, t, Top(buf, 0, true));
      assert PutSoFar(Log(buf, [], []), 0, false);
      pc, log := pc[t := Top(buf, 0, true)], log[t := Log(buf, [], [])];
    }

    /** Writer `t` goes on to the next point where another task may run.  `crlf` is the value
        of IOCTL_CRLF that it finds, `devOk` whether the device takes a character at once. */
    method WriterStep(t: nat, crlf: bool, devOk: bool, at: nat)
      requires Valid() && t < |pc| && pc[t].CanStep() && at <= |wait|
      modifies `sem, `wait, `pc, `written, `sent, `log, ring, ring.buffer
      ensures Valid() && |pc| == |old(pc)|
      ensures written == old(written) + Puts(old(pc)[t], crlf)
      ensures log == old(log)[t := NextLog(old(pc)[t], crlf, old(log)[t])]
      ensures old(pc)[t].Holds() ==> old(ring.count) < ring.bufsz
      ensures pc[t] == Next(old(pc)[t], crlf, ring.count == ring.bufsz, old(sem) >= 1) && Others(old(pc), pc, t)
      ensures ring.count == old(ring.count)
              + (if Puts(old(pc)[t], crlf) == [] || (old(ring.count) == 0 && !stopped && devOk) then 0 else 1)
    {
      hide Balanced, LogsOk, LogOk, Others, NextLog, Next;
      ghost var pc0, got := pc, sem >= 1;
      WriterOk(t);
      LogAt(pc, log, t);
      Go(t, crlf, devOk, at);
      LogStep(pc0[t], crlf, ring.count == ring.bufsz, got, log[t]);
      LogsStay(pc0, pc, log, log[t := NextLog(pc0[t], crlf, log[t])], t);
      log := log[t := NextLog(pc0[t], crlf, log[t])];
    }

    lemma WriterOk(t: nat)
      requires Balanced() && t < |pc|
      ensures pc[t].Ok() && forall u :: 0 <= u < |pc| ==> pc[u].Ok()
      ensures pc[t].Holds() ==> ring.count < ring.bufsz
    {
      hide Count, Holding, NoDup, CharBuffer.Valid, RingData;
      if pc[t].Holds() {
        HolderAlone(t);
      }
    }

    /** The step itself. */
    method Go(t: nat, crlf: bool, devOk: bool, at: nat)
      requires Balanced() && t < |pc| && pc[t].CanStep() && pc[t].Ok() && at <= |wait|
      modifies `sem, `wait, `pc, `written, `sent, ring, ring.buffer
      ensures Balanced() && |pc| == |old(pc)|
      ensures written == old(written) + Puts(old(pc)[t], crlf)
      ensures pc[t] == Next(old(pc)[t], crlf, ring.count == ring.bufsz, old(sem) >= 1) && Others(old(pc), pc, t)
      ensures ring.count == old(ring.count)
              + (if Puts(old(pc)[t], crlf) == [] || (old(ring.count) == 0 && !stopped && devOk) then 0 else 1)
    {
      hide Count, Holding, NoDup, CharBuffer.Valid;
      if pc[t].Holds() {
        HolderAlone(t);
      }
      match pc[t]
      case Top(b, c, full) =>
        if c < |b| {
          if full {
            WaiSem(t, false, at);
          } else {
            Advance(t, Chr(b, c));
          }
        } else {
          Finish(t);
        }
      case LfSem(_, _) => WaiSem(t, true, at);
      case Chr(b, c) =>
        if b[c] == '\n' && crlf {
          PutCr(t, devOk);
        } else {
          PutData(t, devOk);
        }
      case Lf(_, _) => PutData(t, devOk);
    }

    /** When a writer is done, it has put exactly the characters that it counts, as their
        setting asks; one that was released between CR and LF has put that CR as well. */
    lemma WhatWasWritten(t: nat, crlf: bool)
      requires Valid() && t < |pc| && pc[t].Done?
      requires forall i :: 0 <= i < |log[t].modes| ==> log[t].modes[i] == crlf
      ensures var g, n := log[t], pc[t].wricnt;
              && n <= |g.text| && (pc[t].er == E_OK ==> n == |g.text|)
              && (|| g.put == Expand(g.text[..n], crlf)
                  || (pc[t].er != E_OK && n < |g.text| && g.text[n] == '\n' && g.put == Expand(g.text[..n], crlf) + ['\r']))
    {
      hide Balanced, ExpandBy, Expand;
      LogAt(pc, log, t);
      ExpandSteady(log[t].text[..pc[t].wricnt], log[t].modes, crlf);
    }

    /** A writer with the token moves on and keeps it. */
    method Advance(t: nat, w: Writer)
      requires QueueValid() && t < |pc| && pc[t].Holds() && w.Holds() && w.Ok()
      modifies `pc
      ensures QueueValid() && pc == old(pc)[t := w] && Count(Holding(pc)) == old(Count(Holding(pc)))
    {
      HoldingUpdate(pc, t, w);
      pc := pc[t := w];
    }

    /** The end of the loop: a writer that has the token gives it back. */
    method Finish(t: nat)
      requires Balanced() && t < |pc| && pc[t].Top?
      modifies `sem, `wait, `pc
      ensures Balanced() && Others(old(pc), pc, t) && pc[t] == Done(old(pc)[t].cnt, E_OK)
    {
      hide Holding, NoDup;
      if pc[t].Holds() {
        HolderAlone(t);
      }
      var full := pc[t].full;
      HoldingUpdate(pc, t, Done(pc[t].cnt, E_OK));
      pc := pc[t := Done(pc[t].cnt, E_OK)];
      if !full {
        var er := SigSem();
        assert er == E_OK;
      }
    }

    /** CR before LF: if it fills the buffer the writer has to wait for a token again. */
    method PutCr(t: nat, devOk: bool)
      requires Balanced() && t < |pc| && pc[t].Chr?
      modifies `pc, `written, `sent, ring, ring.buffer
      ensures Balanced() && written == old(written) + ['\r']
      ensures var b, c := old(pc)[t].buf, old(pc)[t].cnt;
              pc == old(pc)[t := if ring.count == ring.bufsz then LfSem(b, c) else Lf(b, c)]
      ensures ring.count == old(ring.count) + (if old(ring.count) == 0 && !stopped && devOk then 0 else 1)
    {
      hide Holding, NoDup, CharBuffer.Valid;
      HolderAlone(t);
      var b, c := pc[t].buf, pc[t].cnt;
      var full := PutChr('\r', devOk);
      var w := if full then LfSem(b, c) else Lf(b, c);
      HoldingUpdate(pc, t, w);
      pc := pc[t := w];
    }

    method PutData(t: nat, devOk: bool)
      requires Balanced() && t < |pc| && (pc[t].Chr? || pc[t].Lf?)
      modifies `pc, `written, `sent, ring, ring.buffer
      ensures Balanced() && written == old(written) + [old(pc)[t].buf[old(pc)[t].cnt]]
      ensures pc == old(pc)[t := Top(old(pc)[t].buf, old(pc)[t].cnt + 1, ring.count == ring.bufsz)]
      ensures ring.count == old(ring.count) + (if old(ring.count) == 0 && !stopped && devOk then 0 else 1)
    {
      hide Holding, NoDup, CharBuffer.Valid;
      HolderAlone(t);
      var b, c := pc[t].buf, pc[t].cnt;
      var full := PutChr(b[c], devOk);
      HoldingUpdate(pc, t, Top(b, c + 1, full));
      pc := pc[t := Top(b, c + 1, full)];
    }

    /** A waiting writer is released by rel_wai: it has no token and simply returns. */
    method RelWai(t: nat)
      requires Valid() && t < |pc| && pc[t].Wait?
      modifies `wait, `pc
      ensures Valid() && pc == old(pc)[t := Done(old(pc)[t].cnt, E_RLWAI)]
      ensures Sem(sem, wait) == Release(old(Sem(sem, wait)), t)
    {
      hide LogOk;
      LogWaits(pc[t], log[t]);
      HoldingUpdate(pc, t, Done(pc[t].cnt, E_RLWAI));
      RemoveNoDup(wait, t);
      wait := Remove(wait, t);
      pc := pc[t := Done(pc[t].cnt, E_RLWAI)];
    }

    /** The part of sio_irdy_snd, and of sio_irdy_rcv after START, that hands the next
        character to the device.  The semaphore is never signalled beyond its maximum. */
    method SendNext() returns (c: char, er: Er)
      requires Valid() && ring.count > 0
      modifies `sent, `sem, `wait, `pc, ring
      ensures Valid() && Others(old(pc), pc, -1) && er == E_OK
      ensures sent == old(sent) + [c] && written == old(written)
    {
      hide Count, Holding, NoDup, RingData, LogsOk, Others, LogOk;
      ghost var pc0 := pc;
      var wasFull := ring.count == ring.bufsz;
      c := TakeChr();
      er := E_OK;
      if wasFull {
        er := SigSem();
      } else {
        NobodyChanged(pc);
      }
      LogsStay(pc0, pc, log, log, -1);
    }

    lemma NobodyChanged(p: seq<Writer>)
      ensures Others(p, p, -1)
    {
    }

    /** serial_get_chr takes a character, if there is one, without returning the token of a
        full buffer: the protocol survives exactly if the buffer was not full. */
    method SerialGetChr() returns (ok: bool, c: char)
      requires Valid()
      modifies `sent, ring
      ensures RingValid() && QueueValid() && LogsOk(pc, log)
      ensures ok == (old(ring.count) > 0)
      ensures if ok then sent == old(sent) + [c] && ring.count == old(ring.count) - 1
              else sent == old(sent) && ring.count == old(ring.count)
      ensures Valid() <==> old(ring.count) < ring.bufsz
      ensures old(ring.count) == ring.bufsz ==> Tokens() == 0
    {
      hide Count, Holding, NoDup, RingData, LogsOk;
      if ring.count > 0 {
        c := TakeChr();
        return true, c;
      }
      return false, '\0';
    }
  }

  lemma LogAt(pc: seq<Writer>, log: seq<Log>, t: nat)
    requires LogsOk(pc, log) && t < |pc|
    ensures |log| == |pc| && LogOk(pc[t], log[t])
  {
  }

  /** The buffer does fill up: one writer, a buffer for one character, and a device that
      takes none.  Then serial_get_chr loses the token. */
  method TokenLost() returns (s: SendSide)
    ensures fresh(s) && s.RingValid() && s.QueueValid() && s.Tokens() == 0 && !s.Valid()
  {
    s := new SendSide(1, 1);
    s.StartWriting(0, ['a', 'b']);
    s.WriterStep(0, false, false, 0);
    s.WriterStep(0, false, false, 0);
    assert s.Valid() && s.ring.count == s.ring.bufsz;
    var _, _ := s.SerialGetChr();
  }

  // ----- Receiving, with echo off -------------------------------------------

  // Where a reader stands in _serial_rea_dat.
  datatype Reader =
    | NotReading
    | Head(len: nat, text: seq<char>, empty: bool)  // at the head of the loop
    | Fetch(len: nat, text: seq<char>)              // about to take a character
    | Pause(len: nat, text: seq<char>)              // in the queue of the semaphore
    | Finished(text: seq<char>, er: Er)
  {
    predicate Holds() {
      Fetch? || (Head? && !empty)
    }

    predicate Ok() {
      match this
      case Head(n, s, _) => |s| <= n
      case Fetch(n, s) => |s| < n
      case Pause(n, s) => |s| < n
      case _ => true
    }
  }

  function Fetching(pc: seq<Reader>): seq<bool> {
    seq(|pc|, t requires 0 <= t < |pc| => pc[t].Holds())
  }

  lemma FetchingUpdate(pc: seq<Reader>, t: nat, w: Reader)
    requires t < |pc|
    ensures Count(Fetching(pc[t := w])) + One(pc[t].Holds()) == Count(Fetching(pc)) + One(w.Holds())
  {
    assert Fetching(pc[t := w]) == Fetching(pc)[t := w.Holds()];
    CountUpdate(Fetching(pc), t, w.Holds());
  }

  class RecvSide {
    const ring: CharBuffer
    var fcChr: char          // START or STOP still to be sent, or NUL
    var stopped: bool        // STOP has been sent

    var sem: nat             // the receive semaphore, initially 0
    var wait: seq<nat>
    var pc: seq<Reader>

    ghost var arrived: seq<char>  // characters put into the buffer, in order
    ghost var fetched: seq<char>  // characters taken by readers, in order

    ghost predicate RingValid()
      reads this, ring, ring.buffer
    {
      ring.Valid() && arrived == fetched + ring.Data()
    }

    ghost predicate QueueValid()
      reads `sem, `wait, `pc
    {
      && sem <= 1 && NoDup(wait) && (wait != [] ==> sem == 0)
      && (forall t: nat {:trigger t in wait} :: t in wait <==> t < |pc| && pc[t].Pause?)
      && (forall t {:trigger pc[t]} :: 0 <= t < |pc| ==> pc[t].Ok())
    }

    /** How many tokens there are: in the semaphore, with readers, and in an empty buffer. */
    ghost function Tokens(): nat
      reads `sem, `pc, ring
    {
      sem + Count(Fetching(pc)) + One(ring.count == 0)
    }

    ghost predicate Valid()
      reads this, ring, ring.buffer
    {
      RingValid() && QueueValid() && Tokens() == 1
    }

    constructor (bufsz: nat, ntsk: nat)
      requires bufsz > 0
      ensures Valid() && sem == 0 && ring.count == 0 && !stopped && fcChr == '\0' && fresh(ring) && fresh(ring.buffer)
      ensures ring.bufsz == bufsz && |pc| == ntsk && forall t :: 0 <= t < ntsk ==> pc[t].NotReading?
    {
      ring := new CharBuffer(bufsz);
      fcChr, stopped := '\0', false;
      sem, wait := 0, [];
      pc := seq(ntsk, _ => NotReading);
      arrived, fetched := [], [];
      new;
      NoneCounted(Fetching(pc));
    }

    lemma HolderAlone(t: nat)
      requires Valid() && t < |pc| && pc[t].Holds()
      ensures sem == 0 && ring.count > 0 && Count(Fetching(pc)) == 1
      ensures forall u :: 0 <= u < |pc| && u != t ==> !pc[u].Holds()
    {
      assert Fetching(pc)[t];
      CountOne(Fetching(pc), t);
      assert forall u :: 0 <= u < |pc| ==> Fetching(pc)[u] == pc[u].Holds();
    }

    /** sig_sem and isig_sem. */
    method SigSem() returns (er: Er)
      requires QueueValid() && sem == 0
      modifies `sem, `wait, `pc
      ensures QueueValid() && er == E_OK && |pc| == |old(pc)|
      ensures (Sem(sem, wait), er) == Signal(old(Sem(sem, wait)))
      ensures sem + Count(Fetching(pc)) == old(Count(Fetching(pc))) + 1
      ensures forall t :: 0 <= t < |pc| ==>
                pc[t] == old(pc)[t] || (old(pc)[t].Pause? && pc[t] == Fetch(old(pc)[t].len, old(pc)[t].text))
    {
      if wait != [] {
        var u := wait[0];
        assert u in wait && u !in wait[1..] && forall t: nat :: t in wait <==> t == u || t in wait[1..];
        var w := Fetch(pc[u].len, pc[u].text);
        FetchingUpdate(pc, u, w);
        pc := pc[u := w];
        wait := wait[1..];
        return E_OK;
      }
      if sem < 1 {
        sem := sem + 1;
        return E_OK;
      }
      return E_QOVR;
    }

    /** wai_sem by reader `t`; `at` is the place in the queue that its priority calls for. */
    method WaiSem(t: nat, at: nat)
      requires QueueValid() && t < |pc| && at <= |wait|
      requires pc[t].Head? && pc[t].empty && |pc[t].text| < pc[t].len
      modifies `sem, `wait, `pc
      ensures QueueValid() && Sem(sem, wait) == Await(old(Sem(sem, wait)), t, at)
      ensures sem + Count(Fetching(pc)) == old(sem + Count(Fetching(pc)))
      ensures var (n, s) := (old(pc)[t].len, old(pc)[t].text);
              pc == old(pc)[t := if old(sem) >= 1 then Fetch(n, s) else Pause(n, s)]
    {
      var n, s := pc[t].len, pc[t].text;
      if sem >= 1 {
        sem := sem - 1;
        FetchingUpdate(pc, t, Fetch(n, s));
        pc := pc[t := Fetch(n, s)];
      } else {
        FetchingUpdate(pc, t, Pause(n, s));
        InsertNoDup(wait, at, t);
        assert wait == wait[..at] + wait[at..];
        assert forall u: nat :: u in wait[..at] + [t] + wait[at..] <==> u in wait || u == t;
        wait := wait[..at] + [t] + wait[at..];
        pc := pc[t := Pause(n, s)];
      }
    }

    /** The part of _serial_rea_dat before its loop. */
    method StartReading(t: nat, len: nat)
      requires Valid() && t < |pc| && (pc[t].NotReading? || pc[t].Finished?)
      modifies `pc
      ensures Valid() && pc == old(pc)[t := Head(len, [], true)]
    {
      hide Count, Fetching;
      FetchingUpdate(pc, t, Head(len, [], true));
      pc := pc[t := Head(len, [], true)];
    }

    /** serial_rea_chr: reader `t` has the token, so there is a character to take.  START is
        sent when the buffer has emptied enough: at once (`out`), or by the next callback. */
    method ReaChr(t: nat, devOk: bool) returns (out: seq<char>)
      requires Valid() && t < |pc| && pc[t].Fetch?
      modifies `pc, `fetched, `fcChr, `stopped, ring
      ensures Valid() && old(ring.count) > 0 && arrived == old(arrived) && |fetched| == |old(fetched)| + 1
      ensures fetched[..|old(fetched)|] == old(fetched)
      ensures var (n, s) := (old(pc)[t].len, old(pc)[t].text);
              pc == old(pc)[t := Head(n, s + [fetched[|fetched| - 1]], ring.count == 0)]
      ensures stopped == (old(stopped) && ring.count > ring.bufsz / 2)
      ensures var start := old(stopped) && !stopped;
              && out == (if start && devOk then [FC_START] else [])
              && fcChr == (if start && !devOk then FC_START else old(fcChr))
    {
      hide Count, Fetching, NoDup, RingData;
      HolderAlone(t);
      var n, s := pc[t].len, pc[t].text;
      var c := ring.Take();
      assert fetched + ([c] + ring.Data()) == fetched + [c] + ring.Data();
      fetched := fetched + [c];
      var empty := ring.count == 0;
      out := [];
      if stopped && ring.count <= ring.bufsz / 2 {
        if devOk {
          out := [FC_START];
        } else {
          fcChr := FC_START;
        }
        stopped := false;
      }
      FetchingUpdate(pc, t, Head(n, s + [c], empty));
      pc := pc[t := Head(n, s + [c], empty)];
    }

    /** A reader at the head of its loop goes on. */
    method ReaderStep(t: nat, at: nat)
      requires Valid() && t < |pc| && pc[t].Head? && at <= |wait|
      modifies `sem, `wait, `pc
      ensures Valid() && |pc| == |old(pc)|
      ensures var w := old(pc)[t];
              pc[t] == if |w.text| == w.len then Finished(w.text, E_OK)
                       else if !w.empty || old(sem) >= 1 then Fetch(w.len, w.text) else Pause(w.len, w.text)
    {
      hide Count, Fetching, NoDup, CharBuffer.Valid;
      if pc[t].Holds() {
        HolderAlone(t);
      }
      var w := pc[t];
      if |w.text| < w.len {
        if w.empty {
          WaiSem(t, at);
        } else {
          FetchingUpdate(pc, t, Fetch(w.len, w.text));
          pc := pc[t := Fetch(w.len, w.text)];
        }
      } else {
        FetchingUpdate(pc, t, Finished(w.text, E_OK));
        pc := pc[t := Finished(w.text, E_OK)];
        if !w.empty {
          var er := SigSem();
          assert er == E_OK;
        }
      }
    }

    /** A waiting reader is released by rel_wai. */
    method RelWai(t: nat)
      requires Valid() && t < |pc| && pc[t].Pause?
      modifies `wait, `pc
      ensures Valid() && pc == old(pc)[t := Finished(old(pc)[t].text, E_RLWAI)]
      ensures Sem(sem, wait) == Release(old(Sem(sem, wait)), t)
    {
      hide Count, Fetching, CharBuffer.Valid;
      FetchingUpdate(pc, t, Finished(pc[t].text, E_RLWAI));
      RemoveNoDup(wait, t);
      wait := Remove(wait, t);
      pc := pc[t := Finished(pc[t].text, E_RLWAI)];
    }

    /** The last two branches of sio_irdy_rcv: a character goes into the buffer, or is
        discarded if the buffer is full.  STOP is sent when the buffer has filled up enough:
        at once (`out`), or by the next callback. */
    method Arrive(c: char, fcrcv: bool, devOk: bool) returns (er: Er, out: seq<char>)
      requires Valid()
      modifies `arrived, `fcChr, `stopped, `sem, `wait, `pc, ring, ring.buffer
      ensures Valid() && |pc| == |old(pc)| && er == E_OK && fetched == old(fetched)
      ensures arrived == old(arrived) + (if old(ring.count) == ring.bufsz then [] else [c])
      ensures stopped == (old(stopped) || (fcrcv && old(ring.count) < ring.bufsz && ring.count >= ring.bufsz * 3 / 4))
      ensures var stop := stopped && !old(stopped);
              && out == (if stop && devOk then [FC_STOP] else [])
              && fcChr == (if stop && !devOk then FC_STOP else old(fcChr))
    {
      hide Count, Fetching, NoDup, RingData;
      er, out := E_OK, [];
      if ring.count == ring.bufsz {
        return;
      }
      var wasEmpty := ring.count == 0;
      assert fetched + (ring.Data() + [c]) == fetched + ring.Data() + [c];
      ring.Put(c);
      arrived := arrived + [c];
      if wasEmpty {
        er := SigSem();
      }
      if fcrcv && !stopped && ring.count >= ring.bufsz * 3 / 4 {
        if devOk {
          out := [FC_STOP];
        } else {
          fcChr := FC_STOP;
        }
        stopped := true;
      }
    }
  }

  const FC_STOP: char := '\U{13}'
  const FC_START: char := '\U{11}'

  // ----- The callbacks ------------------------------------------------------

  /** sio_irdy_snd: a flow-control character first, then data; otherwise the callback is
      switched off (`off`).  The device takes the character, as the source assumes. */
  method SioIrdySnd(snd: SendSide, rcv: RecvSide) returns (out: seq<char>, off: bool)
    requires snd.Valid() && rcv.Valid() && snd.ring != rcv.ring && snd.ring.buffer != rcv.ring.buffer
    modifies snd, snd.ring, rcv`fcChr
    ensures snd.Valid() && rcv.Valid()
    ensures if old(rcv.fcChr) != '\0' then
              out == [old(rcv.fcChr)] && rcv.fcChr == '\0' && snd.sent == old(snd.sent)
            else if !old(snd.stopped) && old(snd.ring.count) > 0 then
              |out| == 1 && snd.sent == old(snd.sent) + out
            else off && out == [] && snd.sent == old(snd.sent)
    ensures snd.written == old(snd.written)
  {
    hide Count, Holding, Fetching, NoDup, RingData, CharBuffer.Valid, LogsOk;
    off := false;
    if rcv.fcChr != '\0' {
      out := [rcv.fcChr];
      rcv.fcChr := '\0';
    } else if !snd.stopped && snd.ring.count > 0 {
      var c, er := snd.SendNext();
      assert er == E_OK;
      out := [c];
    } else {
      out, off := [], true;
    }
  }

  /** sio_irdy_rcv, for a received character `c` and the settings of the port; `out` is what
      the device gets. */
  method SioIrdyRcv(snd: SendSide, rcv: RecvSide, c: char, fcsnd: bool, fcany: bool, fcrcv: bool, devOk: bool)
    returns (out: seq<char>)
    requires snd.Valid() && rcv.Valid()
    requires snd.ring != rcv.ring && snd.ring.buffer != rcv.ring.buffer
    modifies snd, snd.ring, rcv, rcv.ring, rcv.ring.buffer
    ensures snd.Valid() && rcv.Valid()
    ensures snd.written == old(snd.written) && rcv.fetched == old(rcv.fetched)
    ensures var stop := fcsnd && c == FC_STOP;
            var go := !stop && old(snd.stopped) && (c == FC_START || fcany);
            var data := !stop && !go && !(fcsnd && c == FC_START);
            && snd.stopped == (stop || (old(snd.stopped) && !go))
            && rcv.arrived == old(rcv.arrived) + (if data && old(rcv.ring.count) != rcv.ring.bufsz then [c] else [])
            && snd.sent == old(snd.sent) + (if go then out else [])
            && (go ==> |out| == if old(snd.ring.count) > 0 && devOk then 1 else 0)
            && (!data ==> rcv.stopped == old(rcv.stopped) && rcv.fcChr == old(rcv.fcChr))
            && (!go ==> out == if devOk && rcv.stopped && !old(rcv.stopped) then [FC_STOP] else [])
            && (data ==> rcv.fcChr == if !devOk && rcv.stopped && !old(rcv.stopped) then FC_STOP else old(rcv.fcChr))
  {
    hide Count, Holding, Fetching, NoDup, RingData, CharBuffer.Valid, LogsOk;
    out := [];
    if fcsnd && c == FC_STOP {
      snd.stopped := true;
    } else if snd.stopped && (c == FC_START || fcany) {
      snd.stopped := false;
      if snd.ring.count > 0 {
        if devOk {
          var d, er := snd.SendNext();
          assert er == E_OK;
          out := [d];
        }
      }
    } else if fcsnd && c == FC_START {
    } else {
      var er;
      er, out := rcv.Arrive(c, fcrcv, devOk);
      assert er == E_OK;
    }
  }

  lemma NobodyHolds(pc: seq<Writer>)
    requires forall t :: 0 <= t < |pc| ==> !pc[t].Holds()
    ensures Count(Holding(pc)) == 0
  {
    NoneCounted(Holding(pc));
  }

  lemma {:induction false} NoneCounted(p: seq<bool>)
    requires forall t :: 0 <= t < |p| ==> !p[t]
    ensures Count(p) == 0
  {
    if p != [] {
      NoneCounted(p[1..]);
    }
  }
}
