/** The bridge and the gateway's duplicate filter together: what becomes of a message that
    is posted again. */
module Delivery {
  import opened Common
  import opened Decimal
  import Inbound
  import Gate

  /** A step of bridge and network at a time, where the server may drop a message it accepts
      as stale or as its owner's own; an eviction in the filter; or a restart of the
      gateway. */
  datatype Action =
    | Bridge(step: Inbound.Step, at: int, dropped: bool)
    | Evict(at: int)
    | Restart(at: int)

  /** `trace` is what the filter sees and `rows[k]` the row event k is a copy of, when it is
      an arrival; `dropped[k]` says whether the server kept the k-th copy it accepted from
      the filter. */
  datatype Joint = Joint(world: Inbound.World, trace: seq<Gate.Event>, rows: seq<int>, dropped: seq<bool>)

  /** The id a row is posted under. */
  function Name(id: int): string {
    if id < 0 then "-" + Itoa(-id) else Itoa(id)
  }

  /** Rows never share an id. */
  lemma NamesDiffer(i: int, j: int)
    ensures Name(i) == Name(j) <==> i == j
    ensures Name(i) != ""
  {
    if i < 0 && j < 0 {
      assert Name(i)[1..] == Itoa(-i) && Name(j)[1..] == Itoa(-j);
      ValueOfItoa(-i);
      ValueOfItoa(-j);
    } else if i >= 0 && j >= 0 {
      ValueOfItoa(i);
      ValueOfItoa(j);
    } else {
      assert IsDigit(Name(if i < 0 then j else i)[0]) && Name(if i < 0 then i else j)[0] == '-';
    }
  }

  function Seen(s: Joint, e: Gate.Event, row: int): Joint {
    s.(trace := s.trace + [e], rows := s.rows + [row])
  }

  function Next(s: Joint, a: Action): Joint {
    match a
    case Evict(at) => Seen(s, Gate.Evict(at), 0)
    case Restart(at) => Seen(s, Gate.Restart(at), 0)
    case Bridge(step, at, dropped) =>
      var w := Inbound.Apply(s.world, step);
      if |w.accepted| <= |s.world.accepted| then s.(world := w)
      else
        var id := w.accepted[|s.world.accepted|];
        var t := s.(world := w, dropped := s.dropped + [dropped]);
        if dropped then t else Seen(t, Gate.Arrive(Name(id), at), id)
  }

  function After(s: Joint, actions: seq<Action>, n: nat): Joint
    requires n <= |actions|
  {
    if n == 0 then s else Next(After(s, actions, n - 1), actions[n - 1])
  }

  function First(chat: seq<Inbound.ChatRow>, n: int): Joint {
    Joint(Inbound.Start(chat, Some(n)), [], [], [])
  }

  ghost predicate Ordered(actions: seq<Action>) {
    forall i, j :: 0 <= i <= j < |actions| ==> actions[i].at <= actions[j].at
  }

  /** Copy k that the server accepted is one of row id, and it went on to the filter. */
  ghost predicate Offered(s: Joint, k: nat, id: int) {
    k < |s.world.accepted| && k < |s.dropped| && s.world.accepted[k] == id && !s.dropped[k]
  }

  /** Event k is a copy of row id. */
  ghost predicate Arrived(s: Joint, k: nat, id: int) {
    k < |s.trace| && k < |s.rows| && s.trace[k].Arrive? && s.rows[k] == id
  }

  /** And it gets past the filter. */
  ghost predicate Through(s: Joint, k: nat, id: int) {
    Arrived(s, k, id) && Gate.Passes(Gate.Before(s.trace, k), s.trace[k])
  }

  ghost predicate WellKept(s: Joint) {
    && |s.rows| == |s.trace| && |s.dropped| == |s.world.accepted|
    && (forall k :: 0 <= k < |s.trace| && s.trace[k].Arrive? ==> s.trace[k].id == Name(s.rows[k]))
  }

  /** The filter sees exactly the rows some copy of which the server accepted and did not
      drop. */
  ghost predicate Accounted(s: Joint) {
    forall id :: SomeOffered(s, id) <==> SomeArrived(s, id)
  }

  ghost predicate SomeOffered(s: Joint, id: int) {
    exists k :: Offered(s, k, id)
  }

  ghost predicate SomeArrived(s: Joint, id: int) {
    exists k :: Arrived(s, k, id)
  }

  lemma AccountsOne(s: Joint, t: Joint, id: int)
    requires WellKept(s) && (SomeOffered(s, id) <==> SomeArrived(s, id))
    requires s.world.accepted <= t.world.accepted && s.dropped <= t.dropped && s.trace <= t.trace && s.rows <= t.rows
    requires WellKept(t) && |t.dropped| <= |s.dropped| + 1 && |t.trace| <= |s.trace| + 1
    requires Offered(t, |s.dropped|, id) <==> Arrived(t, |s.trace|, id)
    ensures SomeOffered(t, id) <==> SomeArrived(t, id)
  {
    if k :| Offered(s, k, id) {
      var j :| Arrived(s, j, id);
      assert Offered(t, k, id) && Arrived(t, j, id);
    } else {
      forall k | Offered(t, k, id) ensures k == |s.dropped| { assert !Offered(s, k, id); }
      forall k | Arrived(t, k, id) ensures k == |s.trace| { assert !Arrived(s, k, id); }
    }
  }

  lemma NextKeeps(s: Joint, a: Action)
    requires WellKept(s) && Accounted(s)
    ensures WellKept(Next(s, a)) && Accounted(Next(s, a))
  {
    hide Inbound.Apply;
    if a.Bridge? { Inbound.StepAcceptsAtMostOne(s.world, a.step); }
    var t := Next(s, a);
    assert WellKept(t);
    forall id ensures SomeOffered(t, id) <==> SomeArrived(t, id) { AccountsOne(s, t, id); }
  }

  /** The trace is in time, up to the last action. */
  ghost predicate InTime(trace: seq<Gate.Event>, now: int) {
    Gate.Ordered(trace) && forall k :: 0 <= k < |trace| ==> trace[k].at <= now
  }

  lemma NextInTime(s: Joint, a: Action, now: int)
    requires InTime(s.trace, now) && now <= a.at
    ensures InTime(Next(s, a).trace, a.at)
  {
    hide Inbound.Apply;
  }

  lemma {:induction false} AfterKeeps(s: Joint, actions: seq<Action>, n: nat)
    requires n <= |actions| && Ordered(actions) && WellKept(s) && Accounted(s) && s.trace == []
    ensures var t := After(s, actions, n); WellKept(t) && Accounted(t) && Gate.Ordered(t.trace)
    ensures n > 0 ==> InTime(After(s, actions, n).trace, actions[n - 1].at)
  {
    hide Inbound.Apply, Accounted, WellKept;
    if n > 0 {
      AfterKeeps(s, actions, n - 1);
      NextKeeps(After(s, actions, n - 1), actions[n - 1]);
      NextInTime(After(s, actions, n - 1), actions[n - 1], if n == 1 then actions[0].at else actions[n - 2].at);
    }
  }

  lemma FirstKeeps(chat: seq<Inbound.ChatRow>, n: int, actions: seq<Action>)
    requires Ordered(actions)
    ensures var t := After(First(chat, n), actions, |actions|); WellKept(t) && Accounted(t) && Gate.Ordered(t.trace)
  {
    var s := First(chat, n);
    assert Accounted(s) by { assert forall k, id :: !Offered(s, k, id) && !Arrived(s, k, id); }
    AfterKeeps(s, actions, |actions|);
  }

  /** What the bridge does is a run of its own machine. */
  lemma {:induction false} AfterRuns(s: Joint, actions: seq<Action>, n: nat) returns (steps: seq<Inbound.Step>)
    requires n <= |actions|
    ensures After(s, actions, n).world == Inbound.Run(s.world, steps)
  {
    hide Inbound.Apply, Inbound.Run;
    if n == 0 {
      steps := [];
      assert Inbound.Run(s.world, []) == s.world by { Inbound.RunNothing(s.world); }
    } else {
      var before := AfterRuns(s, actions, n - 1);
      var a := actions[n - 1];
      if !a.Bridge? {
        steps := before;
      } else {
        steps := before + [a.step];
        Inbound.RunSplit(s.world, before, [a.step]);
        Inbound.RunStep(Inbound.Run(s.world, before), a.step, []);
      }
    }
  }

  /** The first copy of a row that arrives gets through, whatever other rows came before. */
  lemma {:induction false} FirstIsThrough(s: Joint, k: nat, id: int)
    requires WellKept(s) && Arrived(s, k, id)
    ensures exists i :: Through(s, i, id)
  {
    if i: nat :| i < k && Arrived(s, i, id) {
      FirstIsThrough(s, i, id);
    } else {
      NamesDiffer(id, id);
      forall i: nat | i < k && s.trace[i].Arrive? ensures s.trace[i].id != Name(id) {
        assert !Arrived(s, i, id);
        NamesDiffer(s.rows[i], id);
      }
      Gate.FirstArrivalPasses(s.trace, k);
      assert Through(s, k, id);
    }
  }

  /** Whatever is lost, delayed or repeated and whenever the bridge dies: a row got through
      exactly when some accepted copy of that very row was not dropped by the server. */
  lemma GetsThroughExactlyWhen(chat: seq<Inbound.ChatRow>, n: int, actions: seq<Action>, id: int)
    requires Ordered(actions)
    ensures var s := After(First(chat, n), actions, |actions|); (exists k :: Through(s, k, id)) <==> SomeOffered(s, id)
  {
    FirstKeeps(chat, n, actions);
    hide After, Inbound.Apply;
    var s := After(First(chat, n), actions, |actions|);
    if SomeOffered(s, id) {
      var i :| Arrived(s, i, id);
      FirstIsThrough(s, i, id);
    }
    if k :| Through(s, k, id) { assert Arrived(s, k, id); }
  }

  /** So every row it has moved past did, unless the server dropped a copy of it. */
  lemma EveryRowGetsThrough(chat: seq<Inbound.ChatRow>, n: int, actions: seq<Action>, r: Inbound.ChatRow)
    requires Inbound.ChatOk(chat) && 0 < n <= Inbound.MaxId(chat) && Ordered(actions)
    requires var s := After(First(chat, n), actions, |actions|);
             r in s.world.chat && Inbound.Owed(r, n, Inbound.Mark(s.world))
    ensures var s := After(First(chat, n), actions, |actions|);
            (exists k :: Through(s, k, r.id)) || (exists k :: DroppedCopy(s, k, r.id))
  {
    var s := After(First(chat, n), actions, |actions|);
    var steps := AfterRuns(First(chat, n), actions, |actions|);
    Inbound.NothingSkipped(chat, n, steps);
    FirstKeeps(chat, n, actions);
    GetsThroughExactlyWhen(chat, n, actions, r.id);
    hide After, Inbound.Apply, Inbound.Run, Through, Accounted;
    assert r.id in s.world.accepted;
    var k :| 0 <= k < |s.world.accepted| && s.world.accepted[k] == r.id;
    assert DroppedCopy(s, k, r.id) || Offered(s, k, r.id);
  }

  ghost predicate DroppedCopy(s: Joint, k: nat, id: int) {
    k < |s.world.accepted| && k < |s.dropped| && s.world.accepted[k] == id && s.dropped[k]
  }

  /** And however often it is posted, it gets through again only more than the filter's
      TTL later or after a restart of the gateway. */
  lemma NoRowTwiceWithinTtl(chat: seq<Inbound.ChatRow>, n: int, actions: seq<Action>, id: int, i: nat, j: nat)
    requires Ordered(actions) && i < j
    requires var s := After(First(chat, n), actions, |actions|); Through(s, i, id) && Through(s, j, id)
    ensures var s := After(First(chat, n), actions, |actions|);
            s.trace[j].at - s.trace[i].at > 600 || Gate.RestartBetween(s.trace, i, j)
  {
    FirstKeeps(chat, n, actions);
    NamesDiffer(id, id);
    Gate.OncePerTtl(After(First(chat, n), actions, |actions|).trace, i, j);
  }

  /** A second copy of a row after a lost response, with an eviction or a restart between. */
  function RepeatAround(a: Action, later: int): seq<Action> {
    [Bridge(Inbound.Boot(true), 0, false), Bridge(Inbound.Query(true), 0, false), Bridge(Inbound.PostUnheard, 0, false),
     a, Bridge(Inbound.Query(true), later, false), Bridge(Inbound.PostHeard, later, false)]
  }

  lemma AfterNext(s: Joint, actions: seq<Action>, n: nat)
    requires n < |actions|
    ensures After(s, actions, 0) == s && After(s, actions, n + 1) == Next(After(s, actions, n), actions[n])
  {
  }

  lemma FirstCopy(a: Action, later: int)
    ensures var s := After(First([Inbound.OLD_ROW, Inbound.NEW_ROW], 1), RepeatAround(a, later), 3);
            && s.trace == [Gate.Arrive(Name(2), 0)] && s.rows == [2]
            && s.world.process.Ready? && s.world.chat == [Inbound.OLD_ROW, Inbound.NEW_ROW] && s.world.watermark == 1
  {
    Inbound.NewRowSelected();
    hide Inbound.Select, Name, After;
    var s, acts := First([Inbound.OLD_ROW, Inbound.NEW_ROW], 1), RepeatAround(a, later);
    AfterNext(s, acts, 0);
    AfterNext(s, acts, 1);
    AfterNext(s, acts, 2);
  }

  lemma SecondCopy(a: Action, later: int)
    requires a == Evict(later) || a == Restart(later)
    ensures var s := After(First([Inbound.OLD_ROW, Inbound.NEW_ROW], 1), RepeatAround(a, later), 6);
            && s.trace == [Gate.Arrive(Name(2), 0), if a.Evict? then Gate.Evict(later) else Gate.Restart(later),
                           Gate.Arrive(Name(2), later)]
            && s.rows == [2, 0, 2]
  {
    FirstCopy(a, later);
    Inbound.NewRowSelected();
    hide Inbound.Select, Name, After;
    var s, acts := First([Inbound.OLD_ROW, Inbound.NEW_ROW], 1), RepeatAround(a, later);
    AfterNext(s, acts, 3);
    AfterNext(s, acts, 4);
    AfterNext(s, acts, 5);
  }

  /** It does get through again once an eviction more than the TTL later or a restart has
      come between, and not before. */
  lemma RepeatGetsThroughExactlyWhen(a: Action, later: int)
    requires a == Evict(later) || a == Restart(later)
    ensures var s := After(First([Inbound.OLD_ROW, Inbound.NEW_ROW], 1), RepeatAround(a, later), 6);
            Through(s, 0, 2) && (Through(s, 2, 2) <==> a.Restart? || later > 600)
  {
    SecondCopy(a, later);
    NamesDiffer(2, 2);
    hide Name, After;
    var trace := After(First([Inbound.OLD_ROW, Inbound.NEW_ROW], 1), RepeatAround(a, later), 6).trace;
    assert Gate.Before(trace, 0) == map[] && Gate.Before(trace, 1) == map[Name(2) := 0];
    assert Gate.Before(trace, 2) == Gate.Apply(map[Name(2) := 0], trace[1]);
  }
}
