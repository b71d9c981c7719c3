/** Outbound message ids awaiting their delivery echo, bounded by a time to live and a
    hard cap. Go ranges over a map in any order, so which of several equally old ids is
    evicted is left open: a mark is a relation between states. */
module Echo {
  const ECHO_TTL: int := 3600 // seconds
  const ECHO_CAP: nat := 10_000

  type Seen = map<string, int>

  datatype Event = Mark(id: string, at: int) | Consume(id: string)

  function Unexpired(s: Seen, now: int): Seen {
    map k | k in s && now - s[k] < ECHO_TTL :: s[k]
  }

  ghost predicate PartOf(t: Seen, s: Seen) {
    forall k :: k in t ==> k in s && t[k] == s[k]
  }

  /** Eviction to below the cap, oldest first; nothing when there is room. */
  ghost predicate Trimmed(s: Seen, t: Seen) {
    && PartOf(t, s)
    && (|s| < ECHO_CAP ==> t == s)
    && (|s| >= ECHO_CAP ==> |t| == ECHO_CAP - 1)
    && (forall gone, kept :: gone in s && gone !in t && kept in t ==> s[gone] <= t[kept])
  }

  ghost predicate Marks(s: Seen, id: string, now: int, r: Seen) {
    if id == "" then r == s
    else exists t :: Trimmed(Unexpired(s, now), t) && r == t[id := now]
  }

  ghost predicate Steps(s: Seen, e: Event, r: Seen) {
    match e
    case Mark(id, now) => Marks(s, id, now, r)
    case Consume(id) => r == s - {id}
  }

  /** A possible history: `states[n]` is the tracker before event n. */
  ghost predicate Trace(es: seq<Event>, states: seq<Seen>) {
    && |states| == |es| + 1 && states[0] == map[]
    && forall n :: 0 <= n < |es| ==> Steps(states[n], es[n], states[n + 1])
  }

  /** Consume's answer at n. */
  predicate Found(es: seq<Event>, states: seq<Seen>, n: nat)
    requires n < |es| < |states| && es[n].Consume?
  {
    es[n].id in states[n]
  }

  ghost predicate Increasing(es: seq<Event>) {
    forall i, j :: 0 <= i < j < |es| && es[i].Mark? && es[j].Mark? ==> es[i].at < es[j].at
  }

  // ----------------------------------------------------------------- the cap

  lemma StepBounded(s: Seen, e: Event, r: Seen)
    requires Steps(s, e, r) && |s| <= ECHO_CAP && "" !in s
    ensures |r| <= ECHO_CAP && "" !in r
  {
    match e {
      case Mark(id, now) =>
      case Consume(id) => Smaller(r.Keys, s.Keys);
    }
  }

  /** The cap is never exceeded, and the empty id is never tracked. */
  lemma {:induction false} Bounded(es: seq<Event>, states: seq<Seen>, n: nat)
    requires Trace(es, states) && n <= |es|
    ensures |states[n]| <= 10_000 && "" !in states[n]
  {
    hide Steps;
    if n > 0 {
      Bounded(es, states, n - 1);
      StepBounded(states[n - 1], es[n - 1], states[n]);
    }
  }

  lemma {:induction false} Smaller<T>(a: set<T>, b: set<T>)
    requires a <= b
    ensures |a| <= |b|
    decreases a
  {
    if a != {} {
      var x :| x in a;
      Smaller(a - {x}, b - {x});
    }
  }

  // ------------------------------------------------------------ at most once

  /** The id was last marked at m, when its time was recorded, and not consumed since. */
  ghost predicate MarkedAt(es: seq<Event>, m: nat, n: nat, id: string, at: int) {
    && m < n <= |es| && es[m] == Mark(id, at)
    && forall k :: m < k < n ==> es[k].id != id
  }

  lemma {:induction false} TrackedWasMarked(es: seq<Event>, states: seq<Seen>, n: nat, id: string)
    requires Trace(es, states) && n <= |es| && id in states[n]
    ensures exists m: nat :: MarkedAt(es, m, n, id, states[n][id])
  {
    if n > 0 {
      assert Steps(states[n - 1], es[n - 1], states[n]);
      if es[n - 1].Mark? && es[n - 1].id == id && id != "" {
        assert MarkedAt(es, n - 1, n, id, states[n][id]);
      } else {
        Bounded(es, states, n);
        assert id in states[n - 1] && states[n - 1][id] == states[n][id];
        TrackedWasMarked(es, states, n - 1, id);
        var m: nat :| MarkedAt(es, m, n - 1, id, states[n - 1][id]);
        assert MarkedAt(es, m, n, id, states[n][id]);
      }
    }
  }

  /** The id of event j was marked at m, and every event for it from then to j is a mark. */
  ghost predicate MarkOf(es: seq<Event>, m: nat, j: nat) {
    && m < j < |es| && es[m].Mark? && es[m].id == es[j].id
    && forall i :: m <= i < j && es[i].id == es[j].id ==> es[i].Mark?
  }

  /** Consume succeeds at most once a mark: between two successes for one id there is a
      mark of it, and before the first as well. */
  lemma OncePerMark(es: seq<Event>, states: seq<Seen>, j: nat)
    requires Trace(es, states) && j < |es| && es[j].Consume? && Found(es, states, j)
    ensures exists m: nat :: MarkOf(es, m, j)
  {
    TrackedWasMarked(es, states, j, es[j].id);
    var m: nat :| MarkedAt(es, m, j, es[j].id, states[j][es[j].id]);
    assert MarkOf(es, m, j);
  }

  // --------------------------------------------------------------- retention

  /** The tracked ids seen after this one. */
  function Newer(s: Seen, id: string): set<string>
    requires id in s
  {
    set k | k in s && s[id] < s[k]
  }

  ghost predicate Distinct(s: Seen) {
    forall j, k :: j in s && k in s && j != k ==> s[j] != s[k]
  }

  lemma NewerSurviveSweep(s: Seen, now: int, id: string)
    requires id in s && now - s[id] < ECHO_TTL
    ensures id in Unexpired(s, now) && Newer(Unexpired(s, now), id) == Newer(s, id)
  {
  }

  lemma TrimDrops(s: Seen, t: Seen, id: string)
    requires Trimmed(s, t) && Distinct(s) && id in s && id !in t
    ensures |Newer(s, id)| >= ECHO_CAP - 1
  {
    assert forall k :: k in t ==> k in Newer(s, id);
    Smaller(t.Keys, Newer(s, id));
  }

  lemma TrimKeeps(s: Seen, t: Seen, id: string)
    requires Trimmed(s, t) && Distinct(s) && id in t
    ensures |Newer(s, id)| < ECHO_CAP - 1
  {
    assert id in s;
    if |s| < ECHO_CAP {
      Smaller(Newer(s, id) + {id}, s.Keys);
    } else {
      assert forall k :: k in Newer(s, id) ==> k in t;
      Smaller(Newer(s, id) + {id}, t.Keys);
    }
  }

  /** Marking another id loses a tracked, unexpired one exactly when cap - 1 tracked ids
      are newer: eviction takes the oldest first and no more than it must. */
  lemma EvictedExactlyWhen(s: Seen, id: string, marked: string, now: int, r: Seen)
    requires Marks(s, marked, now, r) && marked != "" && marked != id
    requires Distinct(s) && id in s && now - s[id] < 3600 && |s| <= ECHO_CAP
    ensures id !in r <==> |Newer(s, id)| >= 9999
    ensures id in r ==> r[id] == s[id]
  {
    var u := Unexpired(s, now);
    var t :| Trimmed(u, t) && r == t[marked := now];
    NewerSurviveSweep(s, now, id);
    if id in t { TrimKeeps(u, t, id); } else { TrimDrops(u, t, id); }
  }

  /** A mark records its own id at its time, forgets every other id an hour old and brings
      in nothing else. */
  lemma MarkForgetsExpired(s: Seen, id: string, now: int, r: Seen)
    requires Marks(s, id, now, r) && id != ""
    ensures id in r && r[id] == now
    ensures forall k :: k in r && k != id ==> k in s && r[k] == s[k] && now - s[k] < 3600
  {
    var t :| Trimmed(Unexpired(s, now), t) && r == t[id := now];
  }

  /** The distinct other ids marked strictly between i and n. */
  function Others(es: seq<Event>, i: nat, n: nat): set<string>
    requires i < n <= |es|
  {
    set k | i < k < n && es[k].Mark? && es[k].id != es[i].id :: es[k].id
  }

  /** Nothing touched the id since i, and no mark since came a whole ttl later. */
  ghost predicate Undisturbed(es: seq<Event>, i: nat, n: nat) {
    && i < n <= |es| && es[i].Mark? && es[i].id != ""
    && (forall k :: i < k < n ==> es[k].id != es[i].id)
    && (forall k :: i < k < n && es[k].Mark? && es[k].id != "" ==> es[k].at - es[i].at < ECHO_TTL)
  }

  lemma MarksAreDistinct(es: seq<Event>, states: seq<Seen>, n: nat)
    requires Trace(es, states) && Increasing(es) && n <= |es|
    ensures Distinct(states[n])
  {
    forall j, k | j in states[n] && k in states[n] && j != k ensures states[n][j] != states[n][k] {
      TrackedWasMarked(es, states, n, j);
      TrackedWasMarked(es, states, n, k);
      var a: nat :| MarkedAt(es, a, n, j, states[n][j]);
      var b: nat :| MarkedAt(es, b, n, k, states[n][k]);
      assert a != b;
    }
  }

  /** A tracked id newer than the one marked at i was marked after i. */
  lemma NewerAreOthers(es: seq<Event>, states: seq<Seen>, i: nat, n: nat)
    requires Trace(es, states) && Increasing(es) && i < n <= |es| && es[i].Mark?
    requires es[i].id in states[n] && states[n][es[i].id] == es[i].at
    ensures Newer(states[n], es[i].id) <= Others(es, i, n)
  {
    forall k | k in Newer(states[n], es[i].id) ensures k in Others(es, i, n) {
      TrackedWasMarked(es, states, n, k);
      var m: nat :| MarkedAt(es, m, n, k, states[n][k]);
    }
  }

  lemma MarkKeeps(es: seq<Event>, states: seq<Seen>, i: nat, n: nat)
    requires Trace(es, states) && Increasing(es) && i < n < |es| && Undisturbed(es, i, n + 1)
    requires |Others(es, i, n)| < ECHO_CAP - 1
    requires es[i].id in states[n] && states[n][es[i].id] == es[i].at
    requires es[n].Mark? && es[n].id != ""
    ensures es[i].id in states[n + 1] && states[n + 1][es[i].id] == es[i].at
  {
    assert Steps(states[n], es[n], states[n + 1]);
    Bounded(es, states, n);
    MarksAreDistinct(es, states, n);
    NewerAreOthers(es, states, i, n);
    Smaller(Newer(states[n], es[i].id), Others(es, i, n));
    EvictedExactlyWhen(states[n], es[i].id, es[n].id, es[n].at, states[n + 1]);
  }

  /** With strictly increasing mark times, an id stays consumable for under the ttl while
      fewer than cap - 1 distinct other ids are marked after it. */
  lemma {:induction false} StaysConsumable(es: seq<Event>, states: seq<Seen>, i: nat, n: nat)
    requires Trace(es, states) && Increasing(es) && Undisturbed(es, i, n) && |Others(es, i, n)| < ECHO_CAP - 1
    ensures es[i].id in states[n] && states[n][es[i].id] == es[i].at
    decreases n
  {
    assert Steps(states[n - 1], es[n - 1], states[n]);
    if n > i + 1 {
      assert Others(es, i, n - 1) <= Others(es, i, n);
      Smaller(Others(es, i, n - 1), Others(es, i, n));
      StaysConsumable(es, states, i, n - 1);
      if es[n - 1].Mark? && es[n - 1].id != "" { MarkKeeps(es, states, i, n - 1); }
    }
  }

  // ---------------------------------------------------------------- the object

  class Tracker {
    var ids: set<string>
    var lastSeen: Seen

    ghost predicate Valid()
      reads this
    {
      ids == lastSeen.Keys && "" !in ids && |ids| <= ECHO_CAP
    }

    constructor ()
      ensures Valid() && lastSeen == map[]
    {
      ids, lastSeen := {}, map[];
    }

    method MarkId(id: string, now: int)
      requires Valid()
      modifies this
      ensures Valid() && Marks(old(lastSeen), id, now, lastSeen)
    {
      if id == "" { return; }
      SweepExpired(now);
      EvictToCap();
      ghost var t := lastSeen;
      ids := ids + {id};
      lastSeen := lastSeen[id := now];
      assert lastSeen == t[id := now];
    }

    method SweepExpired(now: int)
      requires Valid()
      modifies this
      ensures Valid() && lastSeen == Unexpired(old(lastSeen), now)
    {
      ghost var was := lastSeen;
      var todo := lastSeen.Keys;
      while todo != {}
        invariant ids == lastSeen.Keys && todo <= ids <= was.Keys
        invariant forall k :: k in lastSeen ==> lastSeen[k] == was[k] && (k in todo || now - was[k] < ECHO_TTL)
        invariant forall k :: k in was && now - was[k] < ECHO_TTL ==> k in lastSeen
        decreases |todo|
      {
        var k :| k in todo;
        if now - lastSeen[k] >= ECHO_TTL {
          ids := ids - {k};
          lastSeen := lastSeen - {k};
        }
        todo := todo - {k};
      }
      assert lastSeen == Unexpired(was, now);
      Smaller(ids, was.Keys);
    }

    /** The oldest tracked id; the map is not empty and never holds the empty id, so one
        is always found. */
    method Oldest() returns (oldest: string)
      requires Valid() && ids != {}
      ensures oldest in lastSeen && oldest != ""
      ensures forall k :: k in lastSeen ==> lastSeen[oldest] <= lastSeen[k]
    {
      oldest := "";
      var oldestAt := 0;
      var first := true;
      var todo := lastSeen.Keys;
      while todo != {}
        invariant todo <= lastSeen.Keys
        invariant first ==> todo == lastSeen.Keys
        invariant !first ==> oldest in lastSeen && lastSeen[oldest] == oldestAt
        invariant !first ==> forall k :: k in lastSeen && k !in todo ==> oldestAt <= lastSeen[k]
        decreases |todo|
      {
        var k :| k in todo;
        if first || lastSeen[k] < oldestAt { oldest, oldestAt, first := k, lastSeen[k], false; }
        todo := todo - {k};
      }
    }

    method EvictToCap()
      requires Valid()
      modifies this
      ensures Valid() && Trimmed(old(lastSeen), lastSeen)
    {
      ghost var was := lastSeen;
      while |ids| >= ECHO_CAP
        invariant Valid() && PartOf(lastSeen, was)
        invariant |was| < ECHO_CAP ==> lastSeen == was
        invariant |was| >= ECHO_CAP ==> |lastSeen| >= ECHO_CAP - 1
        invariant forall gone, kept :: gone in was && gone !in lastSeen && kept in lastSeen ==> was[gone] <= lastSeen[kept]
        decreases |ids|
      {
        var oldest := Oldest();
        ids := ids - {oldest};
        lastSeen := lastSeen - {oldest};
      }
    }

    method ConsumeId(id: string) returns (ok: bool)
      requires Valid()
      modifies this
      ensures Valid() && (ok <==> id in old(lastSeen)) && lastSeen == old(lastSeen) - {id}
    {
      if id == "" {
        assert lastSeen - {id} == lastSeen;
        return false;
      }
      ok := id in ids;
      if ok {
        ids := ids - {id};
        lastSeen := lastSeen - {id};
      } else {
        assert lastSeen - {id} == lastSeen;
      }
      Smaller(ids, old(ids));
    }
  }
}
