/** The per-source login throttle. */
module LoginThrottle {
  // Six failures in a fixed window of fifteen minutes lock the source out, and a large map
  // is swept eagerly.

  const MAX_FAILS: nat := 6
  const WINDOW: int := 900 // seconds
  const PRUNE_THRESHOLD: nat := 1024

  datatype Fails = Fails(count: nat, since: int)

  type Book = map<string, Fails>

  predicate Expired(f: Fails, now: int) {
    now - f.since >= WINDOW
  }

  function Swept(b: Book, now: int): Book {
    map src | src in b && !Expired(b[src], now) :: b[src]
  }

  /** The eager sweep at the head of allow and fail. */
  function MaybeSwept(b: Book, now: int): Book {
    if |b| > PRUNE_THRESHOLD then Swept(b, now) else b
  }

  // Without the sweep: the throttle's meaning.

  predicate Lets(b: Book, src: string, now: int) {
    src in b && !Expired(b[src], now) ==> b[src].count < MAX_FAILS
  }

  function Asked(b: Book, src: string, now: int): Book {
    if src in b && Expired(b[src], now) then b - {src} else b
  }

  function Failed(b: Book, src: string, now: int): Book {
    if src !in b || Expired(b[src], now) then b[src := Fails(1, now)]
    else b[src := b[src].(count := b[src].count + 1)]
  }

  /** What becomes of a request that was let in, once its body has arrived and its key has
      been compared: a missing key counts as a wrong one, a garbled body as neither. */
  datatype Login = Wrong | Right | Garbled

  /** A request asks, in one critical section, and is settled later, in another; requests
      overlap as they please. */
  datatype Event =
    | Ask(src: string, at: int)
    | Settle(src: string, at: int, login: Login)

  /** `flying` holds the source of every request let in and not yet settled. */
  datatype State = State(book: Book, flying: multiset<string>)

  const FRESH := State(map[], multiset{})

  function Noted(b: Book, src: string, at: int, login: Login): Book {
    match login
    case Wrong => Failed(b, src, at)
    case Right => b - {src}
    case Garbled => b
  }

  /** One event at the sweep-free throttle. */
  function Plain(s: State, e: Event): State {
    match e
    case Ask(src, at) =>
      State(Asked(s.book, src, at), if Lets(s.book, src, at) then s.flying + multiset{src} else s.flying)
    case Settle(src, at, login) =>
      if src in s.flying then State(Noted(s.book, src, at, login), s.flying - multiset{src}) else s
  }

  predicate Sweeps(s: State, e: Event) {
    e.Ask? || (e.login.Wrong? && e.src in s.flying)
  }

  /** One event at the real one, which may sweep before asking and before recording a
      failure. */
  function Real(s: State, e: Event): State {
    Plain(if Sweeps(s, e) then s.(book := MaybeSwept(s.book, e.at)) else s, e)
  }

  function PlainRun(es: seq<Event>, n: nat): State
    requires n <= |es|
  {
    if n == 0 then FRESH else Plain(PlainRun(es, n - 1), es[n - 1])
  }

  function RealRun(es: seq<Event>, n: nat): State
    requires n <= |es|
  {
    if n == 0 then FRESH else Real(RealRun(es, n - 1), es[n - 1])
  }

  /** The real throttle's answer to the request that asks as event k. */
  predicate LetIn(es: seq<Event>, k: nat)
    requires k < |es|
  {
    Lets(MaybeSwept(RealRun(es, k).book, es[k].at), es[k].src, es[k].at)
  }

  ghost predicate Ordered(es: seq<Event>) {
    forall i, j :: 0 <= i <= j < |es| ==> es[i].at <= es[j].at
  }

  /** What a settlement leaves: a wrong key counts in the open window or opens one, a right
      one clears the source's memory, a garbled body changes nothing; no other source is
      touched, and the request is in flight no more. */
  lemma SettlementMeans(s: State, src: string, at: int, login: Login, other: string)
    requires src in s.flying && other != src
    ensures var r := Plain(s, Settle(src, at, login));
            && r.flying == s.flying - multiset{src}
            && (other in r.book <==> other in s.book) && (other in s.book ==> r.book[other] == s.book[other])
            && match login
               case Right => src !in r.book
               case Garbled => r.book == s.book
               case Wrong =>
                 && src in r.book
                 && r.book[src] == if src in s.book && at - s.book[src].since < 900
                                   then Fails(s.book[src].count + 1, s.book[src].since) else Fails(1, at)
  {
  }

  // ------------------------------------------------- the sweep is unobservable

  /** Both books hold the same unexpired windows. */
  ghost predicate SameLive(a: Book, b: Book, now: int) {
    Swept(a, now) == Swept(b, now)
  }

  lemma SweptTwice(b: Book, t: int, now: int)
    requires t <= now
    ensures Swept(Swept(b, t), now) == Swept(b, now)
  {}

  lemma SameLiveLater(a: Book, b: Book, t: int, now: int)
    requires SameLive(a, b, t) && t <= now
    ensures SameLive(a, b, now)
  {
    SweptTwice(a, t, now);
    SweptTwice(b, t, now);
  }

  lemma SameAnswer(a: Book, b: Book, src: string, now: int)
    requires SameLive(a, b, now)
    ensures Lets(a, src, now) <==> Lets(b, src, now)
  {
    assert src in Swept(a, now) <==> src in a && !Expired(a[src], now);
    assert src in Swept(b, now) <==> src in b && !Expired(b[src], now);
    if src in Swept(a, now) { assert Swept(a, now)[src] == Swept(b, now)[src]; }
  }

  lemma AskedIsLive(b: Book, src: string, now: int)
    ensures SameLive(Asked(b, src, now), b, now) && SameLive(MaybeSwept(b, now), b, now)
  {
    SweptTwice(b, now, now);
  }

  lemma NotedKeepsLive(a: Book, b: Book, src: string, now: int, login: Login)
    requires SameLive(a, b, now)
    ensures SameLive(Noted(a, src, now, login), Noted(b, src, now, login), now)
  {
    assert src in Swept(a, now) <==> src in a && !Expired(a[src], now);
    assert src in Swept(b, now) <==> src in b && !Expired(b[src], now);
    match login {
      case Wrong =>
        if src in Swept(a, now) { assert Swept(a, now)[src] == Swept(b, now)[src]; }
        FailedLive(a, src, now);
        FailedLive(b, src, now);
      case Right =>
        assert Swept(a - {src}, now) == Swept(a, now) - {src};
        assert Swept(b - {src}, now) == Swept(b, now) - {src};
      case Garbled =>
    }
  }

  lemma FailedLive(b: Book, src: string, now: int)
    ensures Swept(Failed(b, src, now), now) == Failed(Swept(b, now), src, now)
  {}

  lemma RealIsPlain(r: State, p: State, e: Event)
    requires SameLive(r.book, p.book, e.at) && r.flying == p.flying
    ensures SameLive(Real(r, e).book, Plain(p, e).book, e.at) && Real(r, e).flying == Plain(p, e).flying
    ensures Lets(MaybeSwept(r.book, e.at), e.src, e.at) <==> Lets(p.book, e.src, e.at)
  {
    var swept := MaybeSwept(r.book, e.at);
    AskedIsLive(r.book, e.src, e.at);
    AskedIsLive(swept, e.src, e.at);
    AskedIsLive(p.book, e.src, e.at);
    SameAnswer(swept, p.book, e.src, e.at);
    if e.Settle? { NotedKeepsLive(if Sweeps(r, e) then swept else r.book, p.book, e.src, e.at, e.login); }
  }

  lemma {:induction false} RunsAgree(es: seq<Event>, n: nat, now: int)
    requires Ordered(es) && n <= |es| && (n > 0 ==> es[n - 1].at <= now)
    ensures SameLive(RealRun(es, n).book, PlainRun(es, n).book, now) && RealRun(es, n).flying == PlainRun(es, n).flying
  {
    if n > 0 {
      RunsAgree(es, n - 1, es[n - 1].at);
      RealIsPlain(RealRun(es, n - 1), PlainRun(es, n - 1), es[n - 1]);
      SameLiveLater(RealRun(es, n).book, PlainRun(es, n).book, es[n - 1].at, now);
    }
  }

  /** However requests overlap, the eager sweep never changes an answer, nor which requests
      are in flight. */
  lemma SweepUnobservable(es: seq<Event>, k: nat)
    requires Ordered(es) && k < |es|
    ensures LetIn(es, k) <==> Lets(PlainRun(es, k).book, es[k].src, es[k].at)
    ensures RealRun(es, k).flying == PlainRun(es, k).flying
  {
    RunsAgree(es, k, es[k].at);
    RealIsPlain(RealRun(es, k), PlainRun(es, k), es[k]);
  }

  /** Forgotten windows do not pile up: once more than 1024 sources are held, asking or
      failing leaves only those whose quarter hour is not over, besides the one concerned,
      and loses none of these. */
  lemma SweepBounds(s: State, e: Event, src: string)
    requires Sweeps(s, e) && |s.book| > 1024 && src != e.src
    ensures src in Real(s, e).book <==> src in s.book && e.at - s.book[src].since < 900
    ensures src in Real(s, e).book ==> Real(s, e).book[src] == s.book[src]
  {
  }

  /** Short of that nothing is swept. */
  lemma FewAreKept(s: State, e: Event)
    requires |s.book| <= 1024
    ensures Real(s, e) == Plain(s, e)
  {
  }

  /** Nor does a window that is over outlive the next request of its source. */
  lemma AskForgetsOver(s: State, src: string, at: int)
    ensures var b := Real(s, Ask(src, at)).book; src in b ==> at - b[src].since < 900
  {
  }

  // ------------------------------------------------------------ the rate bound

  /** Event k settles a wrong key of src that got past the real throttle. */
  predicate Guess(es: seq<Event>, src: string, k: nat)
    requires k < |es|
  {
    es[k].Settle? && es[k].src == src && es[k].login.Wrong? && src in RealRun(es, k).flying
  }

  /** The guesses among events i, ..., j-1. */
  function Guesses(es: seq<Event>, src: string, i: nat, j: nat): nat
    requires i <= j <= |es|
    decreases j
  {
    if i == j then 0 else Guesses(es, src, i, j - 1) + (if Guess(es, src, j - 1) then 1 else 0)
  }

  /** How many failures src may still record at t before it is locked out. */
  function Room(b: Book, src: string, t: int): nat {
    if src !in b || Expired(b[src], t) then MAX_FAILS
    else if b[src].count < MAX_FAILS then MAX_FAILS - b[src].count
    else 0
  }

  /** How many guesses one window yields to a source with `room` left and `flying` requests
      in flight that never has more than m in flight: at the last failure with room, m - 1
      others are still to be settled. */
  function Yield(room: nat, flying: nat, m: nat): nat {
    if room > 0 then room + m - 1 else flying
  }

  /** How many guesses src can make in [a, a + WINDOW) with at most m requests in flight:
      a whole window's with none open at a, what the open one yields when it began at a or
      later, and both together when it began before a and so gives way to a fresh one inside
      the interval. */
  function Budget(s: State, src: string, a: int, m: nat): nat {
    var current := Yield(Room(s.book, src, a), s.flying[src], m);
    if src in s.book && s.book[src].since < a && !Expired(s.book[src], a) then current + Yield(MAX_FAILS, 0, m)
    else current
  }

  lemma GuessSpends(s: State, e: Event, src: string, a: int, m: nat)
    requires a <= e.at < a + WINDOW && !(e.Settle? && e.src == src && e.login.Right?)
    requires m > 0 && s.flying[src] <= m
    ensures Budget(Plain(s, e), src, a, m)
          + (if e.Settle? && e.src == src && e.login.Wrong? && src in s.flying then 1 else 0) <= Budget(s, src, a, m)
  {}

  ghost predicate Within(es: seq<Event>, i: nat, j: nat, a: int) {
    i <= j <= |es| && forall k :: i <= k < j ==> a <= es[k].at < a + WINDOW
  }

  /** No successful login from src in between. */
  ghost predicate NoSuccess(es: seq<Event>, src: string, i: nat, j: nat) {
    i <= j <= |es| && forall k :: i <= k < j ==> !(es[k].Settle? && es[k].src == src && es[k].login.Right?)
  }

  predicate AtMostFlying(s: State, src: string, m: nat) {
    s.flying[src] <= m
  }

  /** src never has more than m requests in flight: m = 1 when they are serialised. */
  ghost predicate Capped(es: seq<Event>, src: string, i: nat, j: nat, m: nat) {
    && m > 0 && i <= j <= |es|
    && forall k :: i <= k <= j ==> AtMostFlying(PlainRun(es, k), src, m)
  }

  /** The events from i up to j lie in [a, a + WINDOW) and hold no success of src, which
      never has more than m requests in flight. */
  ghost predicate Attack(es: seq<Event>, src: string, i: nat, j: nat, a: int, m: nat) {
    Ordered(es) && Within(es, i, j, a) && NoSuccess(es, src, i, j) && Capped(es, src, i, j, m)
  }

  lemma AttackShorter(es: seq<Event>, src: string, i: nat, j: nat, a: int, m: nat)
    requires i < j && Attack(es, src, i, j, a, m)
    ensures Attack(es, src, i, j - 1, a, m) && m > 0 && AtMostFlying(PlainRun(es, j - 1), src, m)
    ensures var e := es[j - 1]; a <= e.at < a + WINDOW && !(e.Settle? && e.src == src && e.login.Right?)
  {
    hide PlainRun, AtMostFlying;
  }

  lemma {:induction false} BudgetBounds(es: seq<Event>, src: string, i: nat, j: nat, a: int, m: nat)
    requires Attack(es, src, i, j, a, m)
    ensures Guesses(es, src, i, j) + Budget(PlainRun(es, j), src, a, m) <= Budget(PlainRun(es, i), src, a, m)
    decreases j
  {
    hide Budget, Plain, RealRun;
    if i < j {
      AttackShorter(es, src, i, j, a, m);
      BudgetBounds(es, src, i, j - 1, a, m);
      GuessSpends(PlainRun(es, j - 1), es[j - 1], src, a, m);
      SweepUnobservable(es, j - 1);
    }
  }

  /** In any half-open interval of one window's length a source makes at most the guesses
      its state at the start allows, so long as it does not log in. */
  lemma BudgetIsKept(es: seq<Event>, src: string, i: nat, j: nat, a: int, m: nat)
    requires Attack(es, src, i, j, a, m)
    ensures Guesses(es, src, i, j) <= Budget(PlainRun(es, i), src, a, m)
  {
    BudgetBounds(es, src, i, j, a, m);
  }

  /** Windows open at one. */
  predicate Counted(s: State, src: string) {
    src in s.book ==> s.book[src].count > 0
  }

  lemma CountedNext(s: State, e: Event, src: string)
    requires Counted(s, src)
    ensures Counted(Plain(s, e), src)
  {}

  lemma {:induction false} CountsPositive(es: seq<Event>, n: nat, src: string)
    requires n <= |es|
    ensures Counted(PlainRun(es, n), src)
  {
    hide Plain;
    if n > 0 {
      CountsPositive(es, n - 1, src);
      CountedNext(PlainRun(es, n - 1), es[n - 1], src);
    }
  }

  /** So never more than 2 * m + 9: eleven when requests are serialised. */
  lemma ElevenPerSlidingWindow(es: seq<Event>, src: string, i: nat, j: nat, a: int, m: nat)
    requires Attack(es, src, i, j, a, m)
    ensures Guesses(es, src, i, j) <= 2 * m + 9
  {
    BudgetBounds(es, src, i, j, a, m);
    CountsPositive(es, i, src);
    assert AtMostFlying(PlainRun(es, i), src, m);
  }

  /** No window that began before a is still open at a, unless it is full and nothing is
      in flight. */
  predicate Settled(s: State, src: string, a: int) {
    || src !in s.book || Expired(s.book[src], a) || s.book[src].since >= a
    || (Room(s.book, src, a) == 0 && src !in s.flying)
  }

  /** And from a settled start never more than m + 5: six when requests are
      serialised. */
  lemma SixPerWindow(es: seq<Event>, src: string, i: nat, j: nat, a: int, m: nat)
    requires Attack(es, src, i, j, a, m) && Settled(PlainRun(es, i), src, a)
    ensures Guesses(es, src, i, j) <= m + 5
  {
    BudgetBounds(es, src, i, j, a, m);
    CountsPositive(es, i, src);
    assert AtMostFlying(PlainRun(es, i), src, m);
  }

  // ------------------------------------------------------- the bound is attained

  /** More events, which attack src from a on. */
  ghost predicate Follows(es: seq<Event>, more: seq<Event>, src: string, a: int, m: nat) {
    Attack(es + more, src, |es|, |es + more|, a, m)
  }

  function Landed(es: seq<Event>, more: seq<Event>, src: string): nat {
    Guesses(es + more, src, |es|, |es + more|)
  }

  ghost predicate AllBy(es: seq<Event>, t: int) {
    Ordered(es) && forall k :: 0 <= k < |es| ==> es[k].at <= t
  }

  /** What a run leaves. */
  function Left(es: seq<Event>): State {
    PlainRun(es, |es|)
  }

  lemma {:induction false} PlainRunPrefix(es: seq<Event>, more: seq<Event>, n: nat)
    requires n <= |es|
    ensures PlainRun(es + more, n) == PlainRun(es, n)
  {
    if n > 0 { PlainRunPrefix(es, more, n - 1); }
  }

  lemma {:induction false} RealRunPrefix(es: seq<Event>, more: seq<Event>, n: nat)
    requires n <= |es|
    ensures RealRun(es + more, n) == RealRun(es, n)
  {
    hide Real;
    if n > 0 { RealRunPrefix(es, more, n - 1); }
  }

  lemma {:induction false} GuessesPrefix(es: seq<Event>, more: seq<Event>, src: string, i: nat, j: nat)
    requires i <= j <= |es|
    ensures Guesses(es + more, src, i, j) == Guesses(es, src, i, j)
    decreases j
  {
    hide RealRun;
    if i < j {
      GuessesPrefix(es, more, src, i, j - 1);
      RealRunPrefix(es, more, j - 1);
    }
  }

  lemma LeftNext(es: seq<Event>, e: Event)
    ensures Left(es + [e]) == Plain(Left(es), e)
  {
    PlainRunPrefix(es, [e], |es|);
  }

  /** One more event of src at the end. */
  lemma LandedNext(es: seq<Event>, more: seq<Event>, e: Event)
    requires AllBy(es + more, e.at)
    ensures AllBy(es + (more + [e]), e.at)
    ensures Left(es + (more + [e])) == Plain(Left(es + more), e)
    ensures Landed(es, more + [e], e.src)
         == Landed(es, more, e.src) + (if e.Settle? && e.login.Wrong? && e.src in Left(es + more).flying then 1 else 0)
  {
    hide PlainRun, RealRun;
    var was, all := es + more, es + (more + [e]);
    assert all == was + [e];
    LeftNext(was, e);
    PlainRunPrefix(was, [e], |was|);
    GuessesPrefix(was, [e], e.src, |es|, |was|);
    SweepUnobservable(all, |was|);
  }

  /** And it is an attack still, unless it is a success or one request too many. */
  lemma FollowsNext(es: seq<Event>, more: seq<Event>, e: Event, src: string, a: int, m: nat)
    requires Follows(es, more, src, a, m) && AllBy(es + more, e.at) && a <= e.at < a + WINDOW
    requires !(e.Settle? && e.src == src && e.login.Right?) && AtMostFlying(Plain(Left(es + more), e), src, m)
    ensures Follows(es, more + [e], src, a, m)
  {
    hide PlainRun, Plain;
    var was, all := es + more, es + (more + [e]);
    assert all == was + [e];
    LeftNext(was, e);
    forall k | |es| <= k <= |all| ensures AtMostFlying(PlainRun(all, k), src, m) {
      if k < |all| {
        PlainRunPrefix(was, [e], k);
        assert AtMostFlying(PlainRun(was, k), src, m);
      }
    }
    assert forall k :: 0 <= k < |was| ==> all[k] == was[k];
  }

  lemma NothingFollows(es: seq<Event>, src: string, a: int, m: nat)
    requires AllBy(es, a) && m > 0 && AtMostFlying(Left(es), src, m)
    ensures Follows(es, [], src, a, m) && Landed(es, [], src) == 0 && es + [] == es
  {
    assert es + [] == es;
  }

  ghost predicate AllAt(es: seq<Event>, t: int) {
    forall k :: 0 <= k < |es| ==> es[k].at == t
  }

  /** The next event of a source that spends all it has at t: ask while another request is
      let in and may be in flight, otherwise guess. */
  function Greedy(s: State, src: string, t: int, m: nat): Event {
    if Lets(s.book, src, t) && s.flying[src] < m then Ask(src, t) else Settle(src, t, Wrong)
  }

  /** Spending everything at the one instant t gets all that a window yields. */
  lemma {:induction false} Storm(es: seq<Event>, more: seq<Event>, src: string, a: int, t: int, m: nat)
    returns (v: seq<Event>)
    requires Follows(es, more, src, a, m) && AllBy(es + more, t) && a <= t < a + WINDOW
    ensures Follows(es, more + v, src, a, m) && AllBy(es + (more + v), t) && AllAt(v, t)
    ensures var s, r := Left(es + more), Left(es + (more + v));
            && Landed(es, more + v, src) == Landed(es, more, src) + Yield(Room(s.book, src, t), s.flying[src], m)
            && r.flying[src] == 0
            && (src in s.book && !Expired(s.book[src], t) ==> src in r.book && r.book[src].since == s.book[src].since)
    decreases Room(Left(es + more).book, src, t),
              if Room(Left(es + more).book, src, t) > 0 then m - Left(es + more).flying[src] else Left(es + more).flying[src]
  {
    hide Landed, Left, PlainRun, Attack;
    var s := Left(es + more);
    FlyingCapped(es, more, src, a, m);
    if Room(s.book, src, t) == 0 && s.flying[src] == 0 {
      v := [];
      assert more + v == more;
    } else {
      var e := Greedy(s, src, t, m);
      GreedyGains(s, src, t, m);
      LandedNext(es, more, e);
      FollowsNext(es, more, e, src, a, m);
      var rest := Storm(es, more + [e], src, a, t, m);
      v := [e] + rest;
      assert more + [e] + rest == more + v;
    }
  }

  lemma FlyingCapped(es: seq<Event>, more: seq<Event>, src: string, a: int, m: nat)
    requires Follows(es, more, src, a, m)
    ensures m > 0 && AtMostFlying(Left(es + more), src, m)
  {
  }

  lemma GreedyGains(s: State, src: string, t: int, m: nat)
    requires m > 0 && AtMostFlying(s, src, m) && (Room(s.book, src, t) > 0 || s.flying[src] > 0)
    ensures var e := Greedy(s, src, t, m); var r := Plain(s, e);
            && AtMostFlying(r, src, m)
            && (e.Settle? ==> src in s.flying)
            && Yield(Room(r.book, src, t), r.flying[src], m) + (if e.Settle? then 1 else 0) == Yield(Room(s.book, src, t), s.flying[src], m)
            && (if e.Settle? && Room(s.book, src, t) > 0 then Room(r.book, src, t) == Room(s.book, src, t) - 1
                else Room(r.book, src, t) == Room(s.book, src, t))
            && (e.Ask? ==> Room(s.book, src, t) > 0 && r.flying[src] == s.flying[src] + 1)
            && (e.Settle? ==> r.flying[src] == s.flying[src] - 1)
            && (src in s.book && !Expired(s.book[src], t) ==>
                  src in r.book && !Expired(r.book[src], t) && r.book[src].since == s.book[src].since)
  {
  }

  lemma AllByLater(es: seq<Event>, t: int, u: int)
    requires AllBy(es, t) && t <= u
    ensures AllBy(es, u)
  {
  }

  /** The bound is exact: whatever came before, some events inside the interval attain it. */
  lemma BudgetIsAttained(es: seq<Event>, src: string, a: int, m: nat)
    requires AllBy(es, a) && m > 0 && AtMostFlying(Left(es), src, m)
    ensures exists more :: Follows(es, more, src, a, m) && Landed(es, more, src) == Budget(Left(es), src, a, m)
  {
    NothingFollows(es, src, a, m);
    hide Left, Landed, Attack;
    var b := Left(es).book;
    var now := Storm(es, [], src, a, a, m);
    assert [] + now == now;
    if src in b && b[src].since < a && !Expired(b[src], a) {
      var later := b[src].since + WINDOW;
      AllByLater(es + now, a, later);
      var last := Storm(es, now, src, a, later, m);
      assert Landed(es, now + last, src) == Budget(Left(es), src, a, m);
    }
  }

  ghost predicate NeverMore(es: seq<Event>, src: string, a: int, m: nat, n: nat) {
    forall more :: Follows(es, more, src, a, m) ==> Landed(es, more, src) <= n
  }

  /** So the budget is the least bound on every continuation. */
  lemma BudgetIsExact(es: seq<Event>, src: string, a: int, m: nat, n: nat)
    requires AllBy(es, a) && m > 0 && AtMostFlying(Left(es), src, m)
    ensures NeverMore(es, src, a, m, n) <==> Budget(Left(es), src, a, m) <= n
  {
    forall more | Follows(es, more, src, a, m) ensures Landed(es, more, src) <= Budget(Left(es), src, a, m) {
      PlainRunPrefix(es, more, |es|);
      BudgetIsKept(es + more, src, |es|, |es + more|, a, m);
    }
    hide Left, Landed, Attack, Budget;
    BudgetIsAttained(es, src, a, m);
  }

  /** m + 5, which is six for serialised requests, bounds an interval exactly
      when its start is settled. */
  lemma SixExactlyWhenSettled(es: seq<Event>, src: string, a: int, m: nat)
    requires AllBy(es, a) && m > 0 && AtMostFlying(Left(es), src, m)
    ensures NeverMore(es, src, a, m, m + 5) <==> Settled(Left(es), src, a)
  {
    BudgetIsExact(es, src, a, m, m + 5);
    CountsPositive(es, |es|, src);
  }

  /** One failure a second before the interval is enough for the most there can be in it. */
  lemma ElevenIsReached(src: string, t: int, m: nat)
    requires m > 0
    ensures var es := [Ask(src, t), Settle(src, t, Wrong)];
            exists more :: Follows(es, more, src, t + 1, m) && Landed(es, more, src) == 2 * m + 9
  {
    var es := [Ask(src, t), Settle(src, t, Wrong)];
    assert Left(es) == State(map[src := Fails(1, t)], multiset{}) by {
      assert PlainRun(es, 0) == FRESH;
      assert PlainRun(es, 1) == State(map[], multiset{src});
    }
    BudgetIsAttained(es, src, t + 1, m);
  }

  /** Without a cap there is no bound at all: a source that is not locked out can land any
      number of guesses at one instant, by asking for all of them first. */
  lemma NoBoundWhenOverlapping(es: seq<Event>, src: string, t: int, n: nat)
    requires AllBy(es, t) && Lets(Left(es).book, src, t)
    ensures exists more :: Ordered(es + more) && AllAt(more, t) && Landed(es, more, src) >= n
  {
    var m := n + Left(es).flying[src] + 1;
    NothingFollows(es, src, t, m);
    hide Left, Landed;
    var more := Storm(es, [], src, t, t, m);
    assert [] + more == more;
  }

  /** Nothing of src happens between k and m at or after the time `end`. */
  ghost predicate QuietFrom(es: seq<Event>, src: string, k: nat, m: nat, end: int) {
    k <= m <= |es| && forall j :: k <= j < m && es[j].src == src ==> es[j].at < end
  }

  /** src is locked out by the window that began at `since`. */
  predicate Locked(s: State, src: string, since: int) {
    src in s.book && s.book[src].since == since && s.book[src].count >= MAX_FAILS
  }

  lemma LockNext(s: State, e: Event, src: string, since: int)
    requires Locked(s, src, since) && (e.src == src ==> e.at < since + WINDOW)
    requires !(e.Settle? && e.src == src && e.login.Right?)
    ensures Locked(Plain(s, e), src, since)
  {}

  lemma {:induction false} LockStays(es: seq<Event>, src: string, k: nat, m: nat, since: int)
    requires k <= |es| && Locked(PlainRun(es, k), src, since)
    requires QuietFrom(es, src, k, m, since + WINDOW) && NoSuccess(es, src, k, m)
    ensures Locked(PlainRun(es, m), src, since)
    decreases m
  {
    hide Plain, Locked;
    if k < m {
      LockStays(es, src, k, m - 1, since);
      LockNext(PlainRun(es, m - 1), es[m - 1], src, since);
    }
  }

  /** A source refused once is refused until its window is over and let in then, whatever it
      tries in between and whatever failures in flight arrive: neither prolongs the lockout.
      Only a request in flight that turns out right can end it sooner. */
  lemma LockoutEndsWithWindow(es: seq<Event>, k: nat, m: nat)
    requires Ordered(es) && k < m < |es| && es[m].src == es[k].src && !LetIn(es, k)
    requires NoSuccess(es, es[k].src, k, m)
    requires es[k].src in PlainRun(es, k).book ==>
               QuietFrom(es, es[k].src, k, m, PlainRun(es, k).book[es[k].src].since + 900)
    ensures es[k].src in PlainRun(es, k).book
    ensures LetIn(es, m) <==> es[m].at >= PlainRun(es, k).book[es[k].src].since + 900
  {
    hide PlainRun, LetIn;
    SweepUnobservable(es, k);
    SweepUnobservable(es, m);
    LockStays(es, es[k].src, k, m, PlainRun(es, k).book[es[k].src].since);
  }

  // ---------------------------------------------------------------- the object

  class Throttle {
    var fails: Book
    ghost var flying: multiset<string> // requests between their two critical sections

    ghost function View(): State
      reads this
    {
      State(fails, flying)
    }

    constructor ()
      ensures View() == FRESH
    {
      fails, flying := map[], multiset{};
    }

    method Sweep(now: int)
      modifies this`fails
      ensures fails == MaybeSwept(old(fails), now)
    {
      if |fails| > PRUNE_THRESHOLD {
        var todo := fails.Keys;
        while todo != {}
          invariant todo <= fails.Keys <= old(fails).Keys
          invariant forall k :: k in fails ==> fails[k] == old(fails)[k] && (k in todo || !Expired(fails[k], now))
          invariant forall k :: k in old(fails) && !Expired(old(fails)[k], now) ==> k in fails
          decreases |todo|
        {
          var k :| k in todo;
          if Expired(fails[k], now) { fails := fails - {k}; }
          todo := todo - {k};
        }
        assert fails == Swept(old(fails), now);
      }
    }

    method Allow(src: string, now: int) returns (ok: bool)
      modifies this`fails
      ensures ok <==> Lets(MaybeSwept(old(fails), now), src, now)
      ensures fails == Asked(MaybeSwept(old(fails), now), src, now)
    {
      Sweep(now);
      if src !in fails { return true; }
      if Expired(fails[src], now) {
        fails := fails - {src};
        return true;
      }
      return fails[src].count < MAX_FAILS;
    }

    method Fail(src: string, now: int)
      modifies this`fails
      ensures fails == Failed(MaybeSwept(old(fails), now), src, now)
    {
      Sweep(now);
      if src !in fails || Expired(fails[src], now) {
        fails := fails[src := Fails(1, now)];
        return;
      }
      fails := fails[src := Fails(fails[src].count + 1, fails[src].since)];
    }

    method Reset(src: string)
      modifies this`fails
      ensures fails == old(fails) - {src}
    {
      fails := fails - {src};
    }

    /** The first half of a login request. */
    method Begin(src: string, now: int) returns (ok: bool)
      modifies this
      ensures ok <==> Lets(MaybeSwept(old(fails), now), src, now)
      ensures View() == Real(old(View()), Ask(src, now))
    {
      ok := Allow(src, now);
      if ok { flying := flying + multiset{src}; }
    }

    /** The second, once the body has been read, for a request that was let in. */
    method Finish(src: string, now: int, login: Login)
      requires src in flying
      modifies this
      ensures View() == Real(old(View()), Settle(src, now, login))
    {
      flying := flying - multiset{src};
      match login {
        case Wrong => Fail(src, now);
        case Right => Reset(src);
        case Garbled =>
      }
    }
  }
}
