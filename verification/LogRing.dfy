/** The console's log feed: the replay ring of the last lines, and the per-subscriber buffers
    that drop the oldest line rather than block a logger. Loggers, the consumer and the
    unsubscription interleave as they please, one channel operation or one critical section
    at a time. */
module LogRing {
  const RING_CAP: nat := 200
  const SINK_BUF: nat := 512

  // ----------------------------------------------------------------- the ring

  /** The last n, or all there are. */
  function Tail<T>(s: seq<T>, n: nat): (t: seq<T>) {
    if |s| <= n then s else s[|s| - n..]
  }

  /** It is the longest suffix of at most n. */
  lemma TailMeans<T>(s: seq<T>, n: nat)
    ensures var t := Tail(s, n);
            |t| <= |s| && t == s[|s| - |t|..] && |t| <= n && (|t| == n || t == s)
  {
  }

  class Ring {
    const cells: array<string>
    var held: nat
    ghost var logged: seq<string>

    ghost predicate Valid()
      reads this, cells
    {
      cells.Length == RING_CAP && held <= RING_CAP && cells[..held] == Tail(logged, RING_CAP)
    }

    constructor ()
      ensures Valid() && logged == [] && fresh(cells)
    {
      cells := new string[RING_CAP];
      held, logged := 0, [];
    }

    /** The shift is done in place. */
    method Append(line: string)
      requires Valid()
      modifies this, cells
      ensures Valid() && logged == old(logged) + [line]
    {
      ghost var was := cells[..held];
      if held == RING_CAP {
        var i := 0;
        while i < RING_CAP - 1
          invariant i < RING_CAP && held == RING_CAP && logged == old(logged) && cells.Length == RING_CAP
          invariant forall k :: 0 <= k < i ==> cells[k] == was[k + 1]
          invariant forall k :: i <= k < RING_CAP ==> cells[k] == was[k]
        {
          cells[i] := cells[i + 1];
          i := i + 1;
        }
        cells[RING_CAP - 1] := line;
        assert cells[..held] == was[1..] + [line];
      } else {
        cells[held] := line;
        held := held + 1;
        assert cells[..held] == was + [line];
      }
      logged := logged + [line];
    }

    /** The last min(limit, logged, 200) lines ever logged, oldest first; a non-positive
        limit asks for everything still held. */
    method Recent(limit: int) returns (out: seq<string>)
      requires Valid()
      ensures out == Tail(logged, if 0 < limit < 200 then limit else 200)
    {
      var n := limit;
      if n <= 0 || n > held { n := held; }
      out := cells[held - n..held];
      assert out == Tail(cells[..held], n);
    }
  }

  // ------------------------------------------------- one subscriber, step by step

  /** A logger's nr-th line since the subscription. */
  datatype Line = Line(logger: int, nr: nat)

  /** Where a logger stands with this subscriber while it holds the read lock. */
  datatype Phase = Idle | Trying(line: Line) | Dropping(line: Line) | Retrying(line: Line)

  datatype Feed = Feed(phases: map<int, Phase>, counts: map<int, nat>, listed: bool, closed: bool,
                       panicked: bool, buf: seq<Line>, got: seq<Line>, lost: seq<Line>)

  const SUBSCRIBED := Feed(map[], map[], true, false, false, [], [], [])

  datatype Event =
    | Begin(logger: int)
    | TrySend(logger: int)
    | DropOldest(logger: int)
    | Retry(logger: int)
    | Take
    | Unlist
    | Close

  function PhaseOf(f: Feed, l: int): Phase {
    if l in f.phases then f.phases[l] else Idle
  }

  function Count(f: Feed, l: int): nat {
    if l in f.counts then f.counts[l] else 0
  }

  /** Unsubscribing takes the write lock, so no logger may be part-way. */
  ghost predicate Quiet(f: Feed) {
    forall l :: PhaseOf(f, l) == Idle
  }

  ghost predicate Enabled(f: Feed, e: Event) {
    match e
    case Begin(l) => f.listed && PhaseOf(f, l) == Idle
    case TrySend(l) => PhaseOf(f, l).Trying?
    case DropOldest(l) => PhaseOf(f, l).Dropping?
    case Retry(l) => PhaseOf(f, l).Retrying?
    case Take => f.buf != []
    case Unlist => f.listed && Quiet(f)
    case Close => !f.listed && !f.closed
  }

  /** A send that succeeds on an open channel with room; a closed one panics. */
  function Sent(f: Feed, x: Line): Feed {
    f.(buf := f.buf + [x], panicked := f.panicked || f.closed, phases := f.phases[x.logger := Idle])
  }

  function Moved(f: Feed, l: int, p: Phase): Feed {
    f.(phases := f.phases[l := p])
  }

  ghost function Next(f: Feed, e: Event): Feed {
    if !Enabled(f, e) then f
    else match e
      case Begin(l) => Moved(f, l, Trying(Line(l, Count(f, l)))).(counts := f.counts[l := Count(f, l) + 1])
      case TrySend(l) =>
        var x := PhaseOf(f, l).line;
        if |f.buf| < SINK_BUF then Sent(f, x) else Moved(f, l, Dropping(x))
      case DropOldest(l) =>
        var g := Moved(f, l, Retrying(PhaseOf(f, l).line));
        if f.buf == [] then g else g.(buf := f.buf[1..], lost := f.lost + [f.buf[0]])
      case Retry(l) =>
        var x := PhaseOf(f, l).line;
        if |f.buf| < SINK_BUF then Sent(f, x) else Moved(f, l, Idle).(lost := f.lost + [x])
      case Take => f.(buf := f.buf[1..], got := f.got + [f.buf[0]])
      case Unlist => f.(listed := false)
      case Close => f.(closed := true)
  }

  /** The feed after a subscription and any interleaving; steps that cannot be taken are
      skipped. */
  ghost function After(es: seq<Event>): Feed {
    if es == [] then SUBSCRIBED else Next(After(es[..|es| - 1]), es[|es| - 1])
  }

  // ------------------------------------------------------- any number of loggers

  predicate LockHeld(f: Feed, l: int) {
    PhaseOf(f, l) != Idle ==> f.listed && Count(f, l) > 0 && PhaseOf(f, l).line == Line(l, Count(f, l) - 1)
  }

  /** How many of a logger's lines have met their fate. */
  function Settled(f: Feed, l: int): int {
    Count(f, l) - (if PhaseOf(f, l) == Idle then 0 else 1)
  }

  predicate Precedes(x: Line, y: Line) {
    x.logger == y.logger ==> x.nr < y.nr
  }

  predicate InOrder(s: seq<Line>) {
    forall i, j :: 0 <= i < j < |s| ==> Precedes(s[i], s[j])
  }

  predicate Known(f: Feed, x: Line) {
    x.nr < Settled(f, x.logger)
  }

  ghost predicate AllKnown(f: Feed, s: seq<Line>) {
    forall x :: x in s ==> Known(f, x)
  }

  ghost predicate Accounted(f: Feed, x: Line) {
    Known(f, x) ==> x in f.got || x in f.buf || x in f.lost
  }

  ghost predicate Locks(f: Feed) {
    && (forall l :: LockHeld(f, l))
    && (f.closed ==> !f.listed) && !f.panicked
  }

  ghost predicate Fates(f: Feed) {
    && |f.buf| <= SINK_BUF && InOrder(f.got + f.buf) && AllKnown(f, f.got + f.buf)
    && (forall x :: Accounted(f, x))
  }

  lemma LocksKept(f: Feed, e: Event)
    requires Locks(f)
    ensures Locks(Next(f, e))
  {
    var g := Next(f, e);
    forall l ensures LockHeld(g, l) {
      assert LockHeld(f, l);
    }
    if Enabled(f, e) && (e.TrySend? || e.Retry?) { assert LockHeld(f, e.logger); }
  }

  lemma OrderedSnoc(s: seq<Line>, x: Line)
    requires InOrder(s) && forall y :: y in s ==> Precedes(y, x)
    ensures InOrder(s + [x])
  {
    assert forall i :: 0 <= i < |s| ==> s[i] in s;
  }

  lemma SendKeepsFates(f: Feed, l: int)
    requires Locks(f) && Fates(f) && PhaseOf(f, l) != Idle && |f.buf| < SINK_BUF
    ensures Fates(Sent(f, PhaseOf(f, l).line))
  {
    var x := PhaseOf(f, l).line;
    var g := Sent(f, x);
    assert LockHeld(f, l);
    assert g.got + g.buf == (f.got + f.buf) + [x];
    assert forall y :: y in f.got + f.buf ==> Known(f, y);
    OrderedSnoc(f.got + f.buf, x);
    forall y ensures Known(g, y) <==> Known(f, y) || y == x {}
    forall y ensures Accounted(g, y) { assert Accounted(f, y); }
  }

  lemma BeginKeepsFates(f: Feed, l: int)
    requires Fates(f) && f.listed && PhaseOf(f, l) == Idle
    ensures Fates(Next(f, Begin(l)))
  {
    var g := Next(f, Begin(l));
    forall y ensures Known(g, y) <==> Known(f, y) {}
    forall y ensures Accounted(g, y) { assert Accounted(f, y); }
  }

  lemma HeadMovesOn(f: Feed)
    requires f.buf != []
    ensures f.got + f.buf == f.got + [f.buf[0]] + f.buf[1..]
    ensures forall y :: y in f.buf <==> y == f.buf[0] || y in f.buf[1..]
  {
    assert f.buf == [f.buf[0]] + f.buf[1..];
  }

  lemma DropKeepsFates(f: Feed, l: int)
    requires Fates(f) && PhaseOf(f, l).Dropping?
    ensures Fates(Next(f, DropOldest(l)))
  {
    var g := Next(f, DropOldest(l));
    forall y ensures Known(g, y) <==> Known(f, y) {}
    if f.buf != [] {
      HeadMovesOn(f);
      var s, n := f.got + f.buf, |f.got|;
      assert forall i :: 0 <= i < |g.got + g.buf| ==> (g.got + g.buf)[i] == s[if i < n then i else i + 1];
    }
    forall y ensures Accounted(g, y) { assert Accounted(f, y); }
  }

  lemma RefusedKeepsFates(f: Feed, l: int)
    requires Locks(f) && Fates(f) && PhaseOf(f, l).Retrying? && |f.buf| >= SINK_BUF
    ensures Fates(Next(f, Retry(l)))
  {
    var g := Next(f, Retry(l));
    assert LockHeld(f, l);
    forall y ensures Known(g, y) <==> Known(f, y) || y == PhaseOf(f, l).line {}
    forall y ensures Accounted(g, y) { assert Accounted(f, y); }
  }

  lemma TakeKeepsFates(f: Feed)
    requires Fates(f) && f.buf != []
    ensures Fates(Next(f, Take))
  {
    var g := Next(f, Take);
    HeadMovesOn(f);
    assert g.got + g.buf == f.got + f.buf;
    forall y ensures Accounted(g, y) { assert Accounted(f, y); }
  }

  lemma SameFates(f: Feed, g: Feed)
    requires Fates(f) && g.buf == f.buf && g.got == f.got && g.lost == f.lost
    requires forall l :: Settled(g, l) == Settled(f, l)
    ensures Fates(g)
  {
    forall y ensures Accounted(g, y) { assert Accounted(f, y); }
  }

  lemma FatesKept(f: Feed, e: Event)
    requires Locks(f) && Fates(f)
    ensures Fates(Next(f, e))
  {
    hide Fates, Locks, Sent;
    if Enabled(f, e) {
      match e {
        case Begin(l) => BeginKeepsFates(f, l);
        case TrySend(l) => if |f.buf| < SINK_BUF { SendKeepsFates(f, l); } else { SameFates(f, Next(f, e)); }
        case DropOldest(l) => DropKeepsFates(f, l);
        case Retry(l) => if |f.buf| < SINK_BUF { SendKeepsFates(f, l); } else { RefusedKeepsFates(f, l); }
        case Take => TakeKeepsFates(f);
        case Unlist => SameFates(f, Next(f, e));
        case Close => SameFates(f, Next(f, e));
      }
    }
  }

  /** In every interleaving of any loggers, the consumer and the unsubscription. */
  lemma {:induction false} RunKeeps(es: seq<Event>)
    ensures Locks(After(es)) && Fates(After(es))
  {
    if es != [] {
      RunKeeps(es[..|es| - 1]);
      LocksKept(After(es[..|es| - 1]), es[|es| - 1]);
      FatesKept(After(es[..|es| - 1]), es[|es| - 1]);
    }
  }

  /** No logger ever sends on a closed channel, though unsubscribing races with logging. */
  lemma {:induction false} NeverPanics(es: seq<Event>)
    ensures !After(es).panicked
  {
    RunKeeps(es);
  }

  /** What each step does: a line goes in while fewer than 512 wait; when they do, the oldest
      is dropped and the line tried once more, and lost if the buffer has filled up again. A
      send on a closed channel would panic. */
  lemma StepsMean(f: Feed, e: Event)
    requires Enabled(f, e)
    ensures var g := Next(f, e);
            match e
            case Begin(l) =>
              g == f.(phases := f.phases[l := Trying(Line(l, Count(f, l)))], counts := f.counts[l := Count(f, l) + 1])
            case TrySend(l) =>
              var x := PhaseOf(f, l).line;
              if |f.buf| < 512 then
                g.buf == f.buf + [x] && g.lost == f.lost && (g.panicked <==> f.panicked || f.closed) && PhaseOf(g, x.logger) == Idle
              else g.buf == f.buf && g.lost == f.lost && PhaseOf(g, l) == Dropping(x)
            case DropOldest(l) =>
              && PhaseOf(g, l) == Retrying(PhaseOf(f, l).line)
              && (if f.buf == [] then g.buf == [] && g.lost == f.lost else f.buf == [g.lost[|f.lost|]] + g.buf && |g.lost| == |f.lost| + 1)
            case Retry(l) =>
              var x := PhaseOf(f, l).line;
              if |f.buf| < 512 then
                g.buf == f.buf + [x] && g.lost == f.lost && (g.panicked <==> f.panicked || f.closed) && PhaseOf(g, x.logger) == Idle
              else g.buf == f.buf && g.lost == f.lost + [x] && PhaseOf(g, l) == Idle
            case Take => f.buf == [g.got[|f.got|]] + g.buf && |g.got| == |f.got| + 1 && g.lost == f.lost
            case Unlist => !g.listed && g.closed == f.closed && g.buf == f.buf
            case Close => g.closed && !g.listed && g.buf == f.buf
  {
  }

  /** The buffer is bounded, and each logger's lines come out in order and at most once;
      every line is received, waiting, lost, or still being offered. */
  lemma {:induction false} LinesKeepTheirOrder(es: seq<Event>)
    ensures |After(es).buf| <= 512 && InOrder(After(es).got + After(es).buf)
    ensures forall l: int, nr: nat :: nr < Count(After(es), l) ==>
              Line(l, nr) in After(es).got || Line(l, nr) in After(es).buf || Line(l, nr) in After(es).lost
              || (PhaseOf(After(es), l) != Idle && PhaseOf(After(es), l).line == Line(l, nr))
  {
    RunKeeps(es);
    var f := After(es);
    forall l: int, nr: nat | nr < Count(f, l)
      ensures Line(l, nr) in f.got || Line(l, nr) in f.buf || Line(l, nr) in f.lost
              || (PhaseOf(f, l) != Idle && PhaseOf(f, l).line == Line(l, nr))
    {
      assert Accounted(f, Line(l, nr)) && LockHeld(f, l);
    }
  }

  // ------------------------------------------------------------------ one logger

  predicate ByOne(es: seq<Event>, l: int) {
    forall k :: 0 <= k < |es| && (es[k].Begin? || es[k].TrySend? || es[k].DropOldest? || es[k].Retry?) ==> es[k].logger == l
  }

  function Lines(l: int, lo: nat, hi: nat): (s: seq<Line>)
    requires lo <= hi
    ensures |s| == hi - lo
  {
    seq(hi - lo, k requires 0 <= k < hi - lo => Line(l, lo + k))
  }

  /** Buffered are the newest settled lines, without a gap; the last one settled was not
      lost; and while nothing was lost the consumer has or will get everything. */
  ghost predicate Solo(f: Feed, l: int) {
    var n := Settled(f, l);
    && |f.buf| <= n && f.buf == Lines(l, n - |f.buf|, n)
    && (PhaseOf(f, l).Retrying? ==> |f.buf| < SINK_BUF)
    && (n > 0 && !PhaseOf(f, l).Retrying? ==> f.got + f.buf != [] && (f.got + f.buf)[|f.got + f.buf| - 1] == Line(l, n - 1))
    && (f.lost == [] ==> f.got + f.buf == Lines(l, 0, n))
  }

  predicate Mine(e: Event, l: int) {
    e.Begin? || e.TrySend? || e.DropOldest? || e.Retry? ==> e.logger == l
  }

  lemma SoloSend(f: Feed, l: int)
    requires Locks(f) && Solo(f, l) && PhaseOf(f, l) != Idle && |f.buf| < SINK_BUF
    ensures Solo(Sent(f, PhaseOf(f, l).line), l)
  {
    assert LockHeld(f, l);
    var g, n := Sent(f, PhaseOf(f, l).line), Settled(f, l);
    assert g.buf == Lines(l, n - |f.buf|, n + 1);
    assert g.got + g.buf == f.got + f.buf + [Line(l, n)];
    assert Lines(l, 0, n + 1) == Lines(l, 0, n) + [Line(l, n)];
  }

  lemma SoloDrop(f: Feed, l: int)
    requires Locks(f) && |f.buf| <= SINK_BUF && Solo(f, l) && PhaseOf(f, l).Dropping?
    ensures Solo(Next(f, DropOldest(l)), l)
  {
    assert LockHeld(f, l);
    var g, n := Next(f, DropOldest(l)), Settled(f, l);
    if f.buf != [] {
      assert g.buf == Lines(l, n - |f.buf|, n)[1..] == Lines(l, n - |g.buf|, n);
    }
  }

  lemma SoloTake(f: Feed, l: int)
    requires Solo(f, l) && f.buf != []
    ensures Solo(Next(f, Take), l)
  {
    var g, n := Next(f, Take), Settled(f, l);
    HeadMovesOn(f);
    assert g.got + g.buf == f.got + f.buf;
    assert g.buf == Lines(l, n - |f.buf|, n)[1..] == Lines(l, n - |g.buf|, n);
  }

  lemma SoloKept(f: Feed, e: Event, l: int)
    requires Locks(f) && Fates(f) && Solo(f, l) && Mine(e, l)
    ensures Solo(Next(f, e), l)
  {
    if Enabled(f, e) {
      if (e.TrySend? || e.Retry?) && |f.buf| < SINK_BUF { SoloSend(f, l); }
      if e.DropOldest? { SoloDrop(f, l); }
      if e.Take? { SoloTake(f, l); }
    }
  }

  lemma {:induction false} SoloRun(es: seq<Event>, l: int)
    requires ByOne(es, l)
    ensures Solo(After(es), l)
  {
    if es == [] {
      assert Lines(l, 0, 0) == [];
    } else {
      SoloRun(es[..|es| - 1], l);
      RunKeeps(es[..|es| - 1]);
      SoloKept(After(es[..|es| - 1]), es[|es| - 1], l);
    }
  }

  /** With one logger, whatever the consumer does: between notifies the buffer is exactly
      the newest lines, the newest of all is never lost, and as long as the consumer has
      lost nothing it has everything. */
  lemma {:induction false} NewestIsKept(es: seq<Event>, l: int)
    requires ByOne(es, l) && PhaseOf(After(es), l) == Idle
    ensures var f := After(es); var n := Count(f, l);
            && |f.buf| <= n && f.buf == Lines(l, n - |f.buf|, n)
            && (n > 0 ==> f.got + f.buf != [] && (f.got + f.buf)[|f.got + f.buf| - 1] == Line(l, n - 1))
            && (f.lost == [] ==> f.got + f.buf == Lines(l, 0, n))
  {
    SoloRun(es, l);
  }

  lemma {:induction false} AfterThen(es: seq<Event>, e: Event)
    ensures After(es + [e]) == Next(After(es), e)
  {
    assert (es + [e])[..|es|] == es;
  }

  /** A subscriber that has read nothing, n lines of logger p on; q has logged nothing. */
  predicate BackedUp(f: Feed, n: nat, p: int, q: int) {
    && f.listed && !f.closed && |f.buf| == n && f.lost == [] && f.got == []
    && PhaseOf(f, p) == Idle && PhaseOf(f, q) == Idle && Count(f, q) == 0
  }

  lemma OneMoreBehind(f: Feed, n: nat, p: int, q: int)
    requires n < SINK_BUF && p != q && BackedUp(f, n, p, q)
    ensures BackedUp(Next(Next(f, Begin(p)), TrySend(p)), n + 1, p, q)
  {
  }

  lemma {:induction false} Backlog(n: nat, p: int, q: int)
    requires n <= SINK_BUF && p != q
    ensures exists es :: BackedUp(After(es), n, p, q)
  {
    hide Next;
    if n == 0 {
      assert BackedUp(After([]), 0, p, q);
    } else {
      Backlog(n - 1, p, q);
      hide After, BackedUp;
      var es :| BackedUp(After(es), n - 1, p, q);
      AfterThen(es, Begin(p));
      AfterThen(es + [Begin(p)], TrySend(p));
      OneMoreBehind(After(es), n - 1, p, q);
      assert BackedUp(After(es + [Begin(p)] + [TrySend(p)]), n, p, q);
    }
  }

  lemma Overtaken(f: Feed, p: int, q: int)
    requires p != q && BackedUp(f, SINK_BUF, p, q)
    ensures var g := Next(Next(Next(f, Begin(q)), TrySend(q)), DropOldest(q));
            var h := Next(Next(Next(g, Begin(p)), TrySend(p)), Retry(q));
            && PhaseOf(h, q) == Idle && Count(h, q) == 1
            && h.lost == [f.buf[0], Line(q, 0)]
            && h.got == [] && h.buf == f.buf[1..] + [Line(p, Count(f, p))]
  {
  }

  lemma {:induction false} NotYetLogged(es: seq<Event>, x: Line)
    ensures x.nr >= Count(After(es), x.logger) ==> x !in After(es).buf
  {
    RunKeeps(es);
    assert !Known(After(es), x) ==> x !in After(es).got + After(es).buf;
  }

  /** With any two loggers the line just logged can be the one that is lost: the room made for
      it is taken by the other's line before the retry. */
  lemma NewestCanBeLost(p: int, q: int)
    requires p != q
    ensures exists es :: PhaseOf(After(es), q) == Idle && Count(After(es), q) == 1 && Line(q, 0) in After(es).lost
                         && Line(q, 0) !in After(es).got + After(es).buf
  {
    hide Next, After;
    Backlog(SINK_BUF, p, q);
    var e0 :| BackedUp(After(e0), SINK_BUF, p, q);
    NotYetLogged(e0, Line(q, 0));
    Overtaken(After(e0), p, q);
    var e1 := e0 + [Begin(q)];
    var e2 := e1 + [TrySend(q)];
    var e3 := e2 + [DropOldest(q)];
    var e4 := e3 + [Begin(p)];
    var e5 := e4 + [TrySend(p)];
    var e6 := e5 + [Retry(q)];
    AfterThen(e0, Begin(q));
    AfterThen(e1, TrySend(q));
    AfterThen(e2, DropOldest(q));
    AfterThen(e3, Begin(p));
    AfterThen(e4, TrySend(p));
    AfterThen(e5, Retry(q));
    var f := After(e6);
    assert f.lost[|f.lost| - 1] == Line(q, 0);
    assert Line(q, 0) !in f.got + f.buf;
  }

  // ---------------------------------------------------------------- the fan-out

  /** A notify that no consumer interrupts. */
  function Offered(buf: seq<string>, line: string): seq<string> {
    if |buf| < SINK_BUF then buf + [line] else buf[1..] + [line]
  }

  /** It leaves the newest lines that fit. */
  lemma OfferKeepsNewest(buf: seq<string>, line: string)
    requires |buf| <= 512
    ensures Offered(buf, line) == Tail(buf + [line], 512)
  {
  }

  /** Each step of an uninterrupted notify put together is that one update. */
  lemma NotifyIsOffer(f: Feed, l: int)
    requires Locks(f) && |f.buf| <= SINK_BUF && f.listed && PhaseOf(f, l) == Idle
    ensures var g := Next(Next(Next(Next(f, Begin(l)), TrySend(l)), DropOldest(l)), Retry(l));
            && PhaseOf(g, l) == Idle && g.got == f.got
            && g.buf == (if |f.buf| < SINK_BUF then f.buf else f.buf[1..]) + [Line(l, Count(f, l))]
  {
  }

  class Fanout {
    var sinks: seq<int>
    var bufs: map<int, seq<string>>
    var closed: set<int>
    var issued: int

    ghost predicate Valid()
      reads this
    {
      && (forall i :: 0 <= i < |sinks| ==> sinks[i] in bufs && sinks[i] !in closed)
      && (forall i, j :: 0 <= i < j < |sinks| ==> sinks[i] != sinks[j])
      && (forall ch :: ch in bufs ==> ch < issued && |bufs[ch]| <= SINK_BUF)
      && (forall ch :: ch in closed ==> ch in bufs)
    }

    constructor ()
      ensures Valid() && sinks == []
    {
      sinks, bufs, closed, issued := [], map[], {}, 0;
    }

    method Subscribe() returns (ch: int)
      requires Valid()
      modifies this
      ensures Valid() && ch !in old(bufs) && sinks == old(sinks) + [ch]
      ensures bufs == old(bufs)[ch := []] && closed == old(closed)
    {
      ch := issued;
      issued := issued + 1;
      bufs := bufs[ch := []];
      sinks := sinks + [ch];
    }

    /** Closing happens once: a second call changes nothing. */
    method Unsubscribe(ch: int)
      requires Valid() && ch in bufs
      modifies this
      ensures Valid() && ch in closed && ch !in sinks && bufs == old(bufs)
      ensures closed == old(closed) + {ch}
      ensures forall other :: other != ch ==> (other in sinks <==> other in old(sinks))
    {
      if ch in closed {
        assert closed == old(closed) + {ch};
        return;
      }
      for i := 0 to |sinks|
        invariant sinks == old(sinks) && bufs == old(bufs) && closed == old(closed) && issued == old(issued)
        invariant ch !in sinks[..i]
      {
        if sinks[i] == ch {
          sinks := sinks[..i] + sinks[i + 1..];
          assert old(sinks) == sinks[..i] + [ch] + sinks[i..];
          break;
        }
      }
      closed := closed + {ch};
    }

    /** Every subscriber, and nobody else, is offered the line. */
    method NotifySinks(line: string)
      requires Valid()
      modifies this`bufs
      ensures Valid() && bufs.Keys == old(bufs).Keys
      ensures forall ch :: ch in bufs ==> bufs[ch] == if ch in sinks then Offered(old(bufs)[ch], line) else old(bufs)[ch]
    {
      for i := 0 to |sinks|
        invariant bufs.Keys == old(bufs).Keys
        invariant forall ch :: ch in bufs ==> bufs[ch] == if ch in sinks[..i] then Offered(old(bufs)[ch], line) else old(bufs)[ch]
      {
        var ch := sinks[i];
        assert sinks[..i + 1] == sinks[..i] + [ch];
        assert ch !in sinks[..i];
        if |bufs[ch]| < SINK_BUF {
          bufs := bufs[ch := bufs[ch] + [line]];
        } else {
          if |bufs[ch]| > 0 { bufs := bufs[ch := bufs[ch][1..]]; }
          if |bufs[ch]| < SINK_BUF { bufs := bufs[ch := bufs[ch] + [line]]; }
        }
      }
      assert sinks[..|sinks|] == sinks;
    }
  }
}
