/** The gateway's two time-windowed gates. */
module Gate {
  // The duplicate filter in front of every inbound message and the cooldown in front of
  // the urgent-alert cascade. Times are in seconds.

  const DEDUP_TTL: int := 600
  const BYPASS_COOLDOWN: int := 90

  /** One critical section under the dedup mutex. An arrival and the eviction that
      follows it are separate sections, so other arrivals may fall in between. A restart
      begins with an empty memory. */
  datatype Event = Arrive(id: string, at: int) | Evict(at: int) | Restart(at: int)

  type Memory = map<string, int>

  function Forget(seen: Memory, now: int): Memory {
    map id | id in seen && !(seen[id] < now - DEDUP_TTL) :: seen[id]
  }

  predicate Passes(seen: Memory, e: Event) {
    e.Arrive? && e.id !in seen
  }

  function Apply(seen: Memory, e: Event): Memory {
    match e
    case Arrive(id, t) => if id == "" || id in seen then seen else seen[id := t]
    case Evict(t) => Forget(seen, t)
    case Restart(_) => map[]
  }

  /** The memory before event k of a run. */
  function Before(es: seq<Event>, k: nat): Memory
    requires k <= |es|
  {
    if k == 0 then map[] else Apply(Before(es, k - 1), es[k - 1])
  }

  ghost predicate Ordered(es: seq<Event>) {
    forall i, j :: 0 <= i <= j < |es| ==> es[i].at <= es[j].at
  }

  /** Event k let id through, and after it, up to n, came no restart and no eviction more
      than the TTL later. */
  ghost predicate Standing(es: seq<Event>, k: nat, n: nat, id: string)
    requires k < n <= |es|
  {
    && es[k].Arrive? && es[k].id == id && Passes(Before(es, k), es[k])
    && (forall j :: k < j < n ==> !es[j].Restart? && (es[j].Evict? ==> es[j].at <= es[k].at + DEDUP_TTL))
  }

  /** The map is exactly the set of passes that no restart and no late enough eviction has
      ended. */
  lemma {:induction false} MemoryIsStanding(es: seq<Event>, n: nat, id: string)
    requires n <= |es| && id != ""
    ensures id in Before(es, n) ==> exists k :: 0 <= k < n && Standing(es, k, n, id) && Before(es, n)[id] == es[k].at
    ensures forall k :: 0 <= k < n && Standing(es, k, n, id) ==> id in Before(es, n) && Before(es, n)[id] == es[k].at
  {
    if n > 0 {
      MemoryIsStanding(es, n - 1, id);
      var e := es[n - 1];
      forall k | 0 <= k < n && Standing(es, k, n, id)
        ensures id in Before(es, n) && Before(es, n)[id] == es[k].at
      {
        if k < n - 1 { assert Standing(es, k, n - 1, id); }
      }
      if id in Before(es, n) {
        if id in Before(es, n - 1) {
          var k :| 0 <= k < n - 1 && Standing(es, k, n - 1, id) && Before(es, n - 1)[id] == es[k].at;
          assert Standing(es, k, n, id);
        } else {
          assert Standing(es, n - 1, n, id);
        }
      }
    }
  }

  /** A message is dropped exactly when its id passed before, with no restart since and
      no eviction more than the TTL after that pass. */
  lemma DroppedExactlyWhen(es: seq<Event>, n: nat)
    requires n < |es| && es[n].Arrive? && es[n].id != ""
    ensures !Passes(Before(es, n), es[n]) <==> exists k :: 0 <= k < n && Standing(es, k, n, es[n].id)
  {
    MemoryIsStanding(es, n, es[n].id);
  }

  ghost predicate RestartBetween(es: seq<Event>, i: nat, j: nat) {
    exists k :: i < k < j < |es| && es[k].Restart?
  }

  /** One id gets through at most once in any closed window of the TTL, short of a
      restart. */
  lemma OncePerTtl(es: seq<Event>, i: nat, j: nat)
    requires Ordered(es) && i < j < |es|
    requires es[i].Arrive? && es[j].Arrive? && es[i].id == es[j].id != ""
    requires Passes(Before(es, i), es[i]) && Passes(Before(es, j), es[j])
    ensures es[j].at - es[i].at > 600 || RestartBetween(es, i, j)
  {
    if es[j].at - es[i].at <= DEDUP_TTL && !RestartBetween(es, i, j) {
      assert Standing(es, i, j, es[i].id) by {
        forall k | i < k < j ensures !es[k].Restart? && es[k].at <= es[i].at + DEDUP_TTL {
          assert es[k].at <= es[j].at;
        }
      }
      DroppedExactlyWhen(es, j);
    }
  }

  /** A message id that never came before is let through. */
  lemma FirstArrivalPasses(es: seq<Event>, n: nat)
    requires n < |es| && es[n].Arrive? && es[n].id != ""
    requires forall k :: 0 <= k < n && es[k].Arrive? ==> es[k].id != es[n].id
    ensures Passes(Before(es, n), es[n])
  {
    DroppedExactlyWhen(es, n);
  }

  /** A message without an id is never treated as a duplicate. */
  lemma {:induction false} NoIdAlwaysPasses(es: seq<Event>, n: nat)
    requires n <= |es|
    ensures "" !in Before(es, n)
  {
    if n > 0 { NoIdAlwaysPasses(es, n - 1); }
  }

  // ------------------------------------------------------------ alert cooldown

  datatype Ask = Ask(chat: string, at: int)

  predicate Fires(last: Memory, a: Ask) {
    !(a.chat in last && a.at - last[a.chat] < BYPASS_COOLDOWN)
  }

  function Cool(last: Memory, a: Ask): Memory {
    if Fires(last, a) then last[a.chat := a.at] else last
  }

  function LastBefore(asks: seq<Ask>, k: nat): Memory
    requires k <= |asks|
  {
    if k == 0 then map[] else Cool(LastBefore(asks, k - 1), asks[k - 1])
  }

  ghost predicate FiredAt(asks: seq<Ask>, k: nat, chat: string)
    requires k < |asks|
  {
    asks[k].chat == chat && Fires(LastBefore(asks, k), asks[k])
  }

  lemma {:induction false} LastIsLatest(asks: seq<Ask>, n: nat, chat: string)
    requires n <= |asks| && forall i, j :: 0 <= i <= j < |asks| ==> asks[i].at <= asks[j].at
    ensures chat in LastBefore(asks, n) ==> exists k :: 0 <= k < n && FiredAt(asks, k, chat) && LastBefore(asks, n)[chat] == asks[k].at
    ensures forall k :: 0 <= k < n && FiredAt(asks, k, chat) ==> chat in LastBefore(asks, n) && asks[k].at <= LastBefore(asks, n)[chat]
  {
    if n > 0 {
      LastIsLatest(asks, n - 1, chat);
      if chat in LastBefore(asks, n) {
        if FiredAt(asks, n - 1, chat) {
        } else {
          var k :| 0 <= k < n - 1 && FiredAt(asks, k, chat) && LastBefore(asks, n - 1)[chat] == asks[k].at;
          assert FiredAt(asks, k, chat) && LastBefore(asks, n)[chat] == asks[k].at;
        }
      }
    }
  }

  /** A chat may fire exactly when none of its earlier firings is less than the
      cooldown old. */
  lemma {:induction false} FiresExactlyWhenCool(asks: seq<Ask>, n: nat)
    requires n < |asks| && forall i, j :: 0 <= i <= j < |asks| ==> asks[i].at <= asks[j].at
    ensures Fires(LastBefore(asks, n), asks[n]) <==>
            forall k :: 0 <= k < n && FiredAt(asks, k, asks[n].chat) ==> asks[n].at - asks[k].at >= 90
  {
    LastIsLatest(asks, n, asks[n].chat);
  }

  // ------------------------------------------------------------------- handler

  class Handler {
    var dedup: Memory
    var lastAlert: Memory

    constructor ()
      ensures dedup == map[] && lastAlert == map[]
    {
      dedup, lastAlert := map[], map[];
    }

    /** The duplicate check at the head of Handle. */
    method Admit(id: string, now: int) returns (pass: bool)
      modifies this`dedup
      ensures pass <==> id == "" || Passes(old(dedup), Arrive(id, now))
      ensures dedup == Apply(old(dedup), Arrive(id, now))
    {
      if id != "" {
        if id in dedup { return false; }
        dedup := dedup[id := now];
      }
      return true;
    }

    method EvictDedup(now: int)
      modifies this`dedup
      ensures dedup == Apply(old(dedup), Evict(now))
    {
      var cutoff := now - DEDUP_TTL;
      var todo := dedup.Keys;
      while todo != {}
        invariant todo <= dedup.Keys <= old(dedup).Keys
        invariant forall id :: id in dedup ==> dedup[id] == old(dedup)[id] && (id in todo || !(dedup[id] < cutoff))
        invariant forall id :: id in old(dedup) && !(old(dedup)[id] < cutoff) ==> id in dedup
        decreases |todo|
      {
        var id :| id in todo;
        if dedup[id] < cutoff { dedup := dedup - {id}; }
        todo := todo - {id};
      }
      assert dedup == Forget(old(dedup), now);
    }

    method AlertAllowed(chat: string, now: int) returns (ok: bool)
      modifies this`lastAlert
      ensures ok <==> Fires(old(lastAlert), Ask(chat, now))
      ensures lastAlert == Cool(old(lastAlert), Ask(chat, now))
    {
      if chat in lastAlert && now - lastAlert[chat] < BYPASS_COOLDOWN { return false; }
      lastAlert := lastAlert[chat := now];
      return true;
    }
  }
}
