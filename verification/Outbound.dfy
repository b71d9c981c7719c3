/** Outbound iMessage delivery: the SQLite queue on the server and the bridge's claim, send,
    ack poller, joined by a network that may lose any request or response and a bridge that
    may crash at any point. One SQL statement or transaction is one atomic step. Row ids are
    issued by AUTOINCREMENT, so they are never used twice. */
module Outbound {
  import opened Common

  datatype Status = Pending | Picked(at: int)

  datatype Row = Row(recipient: string, text: string, status: Status)

  datatype Letter = Letter(recipient: string, text: string)

  /** Where the bridge's current poll is: it holds a claimed message, or it has
      delivered one and not acknowledged it yet. */
  datatype Bridge = Idle | Holding(id: int, letter: Letter) | Unacked(id: int)

  /** `enqueued[id - 1]` is what was queued under id. `attempts` lists every call of
      Send, `delivered` the ids whose Send returned without error, `removed` the ids
      deleted from the table, `late` the ack requests still on the wire. */
  datatype World = World(
    rows: map<int, Row>,
    lastId: int,
    bridge: Bridge,
    late: set<int>,
    enqueued: seq<Letter>,
    attempts: seq<(int, Letter)>,
    delivered: set<int>,
    removed: set<int>)

  datatype Step =
    | Enqueue(letter: Letter)
    | Claim(at: int)          // the response reaches the bridge
    | ClaimLost(at: int)      // the row is claimed but no bridge ever hears of it
    | SendOk
    | SendFails               // or the bridge dies during Send
    | AckOk                   // the row is deleted, whether or not the bridge hears of it
    | AckDelayed              // the request is still on the wire when the bridge gives up
    | AckArrives(id: int)     // such a request reaches the server after all
    | Crash

  const EMPTY: World := World(map[], 0, Idle, {}, [], [], {}, {})

  function PendingIds(rows: map<int, Row>): set<int> {
    set id | id in rows && rows[id].status.Pending?
  }

  /** The oldest pending id. */
  ghost predicate IsOldest(rows: map<int, Row>, id: int) {
    id in PendingIds(rows) && forall p :: p in PendingIds(rows) ==> id <= p
  }

  lemma {:induction false} LeastOf(ids: set<int>) returns (m: int)
    requires ids != {}
    ensures m in ids
    ensures forall p :: p in ids ==> m <= p
    decreases |ids|
  {
    Inhabited(ids);
    var k: int :| k in ids;
    var rest := ids - {k};
    assert forall p :: p in ids ==> p == k || p in rest;
    if rest == {} {
      m := k;
    } else {
      var n := LeastOf(rest);
      m := if n < k then n else k;
    }
  }

  lemma SomeOldest(rows: map<int, Row>)
    requires PendingIds(rows) != {}
    ensures exists id :: IsOldest(rows, id)
  {
    var m := LeastOf(PendingIds(rows));
    assert IsOldest(rows, m);
  }

  ghost function Oldest(rows: map<int, Row>): (id: int)
    requires PendingIds(rows) != {}
    ensures IsOldest(rows, id)
  {
    SomeOldest(rows);
    var id :| IsOldest(rows, id);
    id
  }

  function Pick(rows: map<int, Row>, id: int, at: int): map<int, Row>
    requires id in rows
  {
    rows[id := rows[id].(status := Picked(at))]
  }

  ghost function Apply(w: World, step: Step): World {
    match step
    case Enqueue(l) =>
      w.(lastId := w.lastId + 1,
         rows := w.rows[w.lastId + 1 := Row(l.recipient, l.text, Pending)],
         enqueued := w.enqueued + [l])
    case Claim(at) =>
      if w.bridge.Idle? && PendingIds(w.rows) != {} then
        var id := Oldest(w.rows);
        w.(rows := Pick(w.rows, id, at),
           bridge := Holding(id, Letter(w.rows[id].recipient, w.rows[id].text)))
      else w
    case ClaimLost(at) =>
      if PendingIds(w.rows) != {} then w.(rows := Pick(w.rows, Oldest(w.rows), at)) else w
    case SendOk =>
      if w.bridge.Holding? then
        w.(attempts := w.attempts + [(w.bridge.id, w.bridge.letter)],
           delivered := w.delivered + {w.bridge.id},
           bridge := Unacked(w.bridge.id))
      else w
    case SendFails =>
      if w.bridge.Holding? then w.(attempts := w.attempts + [(w.bridge.id, w.bridge.letter)], bridge := Idle) else w
    case AckOk =>
      if w.bridge.Unacked? then Delete(w, w.bridge.id).(bridge := Idle) else w
    case AckDelayed =>
      if w.bridge.Unacked? then w.(late := w.late + {w.bridge.id}, bridge := Idle) else w
    case AckArrives(id) => if id in w.late then Delete(w, id) else w
    case Crash => w.(bridge := Idle)
  }

  function Delete(w: World, id: int): World {
    w.(rows := w.rows - {id}, removed := w.removed + {id})
  }

  ghost function Run(w: World, steps: seq<Step>): World
    decreases |steps|
  {
    if steps == [] then w else Run(Apply(w, steps[0]), steps[1..])
  }

  // -------------------------------------------------------------- invariant

  /** Claimed at some time: picked and still there, or removed. */
  predicate Claimed(rows: map<int, Row>, lastId: int, id: int) {
    1 <= id <= lastId && id !in PendingIds(rows)
  }

  predicate Increasing(log: seq<(int, Letter)>) {
    forall i, j :: 0 <= i < j < |log| ==> log[i].0 < log[j].0
  }

  predicate Faithful(enqueued: seq<Letter>, id: int, l: Letter) {
    1 <= id <= |enqueued| && enqueued[id - 1] == l
  }

  ghost predicate QueueInOrder(rows: map<int, Row>, lastId: int) {
    forall c, p :: Claimed(rows, lastId, c) && p in PendingIds(rows) ==> c < p
  }

  ghost predicate Inv(w: World) {
    && |w.enqueued| == w.lastId
    && (forall id :: 1 <= id <= w.lastId <==> id in w.rows || id in w.removed)
    && w.rows.Keys !! w.removed
    && (forall id :: id in w.rows ==> Faithful(w.enqueued, id, Letter(w.rows[id].recipient, w.rows[id].text)))
    && QueueInOrder(w.rows, w.lastId)
    && Increasing(w.attempts)
    && (forall k :: 0 <= k < |w.attempts| ==>
          Claimed(w.rows, w.lastId, w.attempts[k].0) && Faithful(w.enqueued, w.attempts[k].0, w.attempts[k].1))
    && (w.bridge.Holding? ==>
         && Claimed(w.rows, w.lastId, w.bridge.id) && Faithful(w.enqueued, w.bridge.id, w.bridge.letter)
         && forall k :: 0 <= k < |w.attempts| ==> w.attempts[k].0 < w.bridge.id)
    && w.removed <= w.delivered && w.late <= w.delivered
    && (w.bridge.Unacked? ==> w.bridge.id in w.delivered)
    && (forall id :: id in w.delivered ==> exists k :: 0 <= k < |w.attempts| && w.attempts[k].0 == id)
  }

  lemma PickPending(rows: map<int, Row>, id: int, at: int)
    requires id in rows
    ensures PendingIds(Pick(rows, id, at)) == PendingIds(rows) - {id}
  {}

  lemma ClaimKeeps(w: World, at: int)
    requires Inv(w) && PendingIds(w.rows) != {}
    ensures Inv(w.(rows := Pick(w.rows, Oldest(w.rows), at)))
    ensures Claimed(Pick(w.rows, Oldest(w.rows), at), w.lastId, Oldest(w.rows))
  {
    var id := Oldest(w.rows);
    var r := w.(rows := Pick(w.rows, id, at));
    PickPending(w.rows, id, at);
    assert forall c :: Claimed(r.rows, r.lastId, c) <==> Claimed(w.rows, w.lastId, c) || c == id;
    forall c, p | Claimed(r.rows, r.lastId, c) && p in PendingIds(r.rows) ensures c < p {
      assert p in PendingIds(w.rows);
    }
  }

  lemma EnqueueKeeps(w: World, l: Letter)
    requires Inv(w)
    ensures Inv(Apply(w, Enqueue(l)))
  {
    var r := Apply(w, Enqueue(l));
    assert PendingIds(r.rows) == PendingIds(w.rows) + {w.lastId + 1};
    assert forall id :: Claimed(r.rows, r.lastId, id) <==> Claimed(w.rows, w.lastId, id);
    assert forall id, m :: Faithful(w.enqueued, id, m) ==> Faithful(r.enqueued, id, m);
  }

  lemma DeleteKeeps(w: World, id: int)
    requires Inv(w) && id in w.delivered
    ensures Inv(Delete(w, id))
  {
    var k :| 0 <= k < |w.attempts| && w.attempts[k].0 == id;
    assert PendingIds(Delete(w, id).rows) == PendingIds(w.rows) - {id};
    assert forall c :: Claimed(Delete(w, id).rows, w.lastId, c) <==> Claimed(w.rows, w.lastId, c);
  }

  lemma SendKeeps(w: World, ok: bool)
    requires Inv(w) && w.bridge.Holding?
    ensures Inv(Apply(w, if ok then SendOk else SendFails))
  {
    var r := Apply(w, if ok then SendOk else SendFails);
    assert forall c :: Claimed(r.rows, r.lastId, c) <==> Claimed(w.rows, w.lastId, c);
    forall id | id in r.delivered ensures exists k :: 0 <= k < |r.attempts| && r.attempts[k].0 == id {
      if id in w.delivered {
        var k :| 0 <= k < |w.attempts| && w.attempts[k].0 == id;
        assert r.attempts[k].0 == id;
      } else {
        assert r.attempts[|w.attempts|].0 == id;
      }
    }
  }

  lemma StepKeeps(w: World, step: Step)
    requires Inv(w)
    ensures Inv(Apply(w, step))
  {
    match step {
      case Enqueue(l) => EnqueueKeeps(w, l);
      case Claim(at) =>
        if w.bridge.Idle? && PendingIds(w.rows) != {} {
          ClaimKeeps(w, at);
        }
      case ClaimLost(at) => if PendingIds(w.rows) != {} { ClaimKeeps(w, at); }
      case SendOk => if w.bridge.Holding? { SendKeeps(w, true); }
      case SendFails => if w.bridge.Holding? { SendKeeps(w, false); }
      case AckOk => if w.bridge.Unacked? { DeleteKeeps(w, w.bridge.id); }
      case AckDelayed =>
      case AckArrives(id) => if id in w.late { DeleteKeeps(w, id); }
      case Crash =>
    }
  }

  lemma {:induction false} RunKeeps(w: World, steps: seq<Step>)
    requires Inv(w)
    ensures Inv(Run(w, steps))
    decreases |steps|
  {
    if steps != [] {
      StepKeeps(w, steps[0]);
      RunKeeps(Apply(w, steps[0]), steps[1..]);
    }
  }

  // ----------------------------------------------------------------- theorems

  /** At most once and in order: over any run the ids handed to Send are strictly
      increasing, each with the recipient and text that were queued under it. */
  lemma AtMostOnceInOrder(steps: seq<Step>, i: nat, j: nat)
    requires i < j < |Run(EMPTY, steps).attempts|
    ensures var w := Run(EMPTY, steps);
            && w.attempts[i].0 < w.attempts[j].0
            && Faithful(w.enqueued, w.attempts[i].0, w.attempts[i].1) && Faithful(w.enqueued, w.attempts[j].0, w.attempts[j].1)
  {
    RunKeeps(EMPTY, steps);
  }

  /** Every id ever queued is in exactly one of three states, and a row leaves the
      table only after its Send succeeded. */
  lemma PendingPickedRemovedPartition(steps: seq<Step>, id: int)
    ensures var w := Run(EMPTY, steps);
            var pending := id in PendingIds(w.rows);
            var picked := id in w.rows && w.rows[id].status.Picked?;
            var removed := id in w.removed;
            && (1 <= id <= |w.enqueued| <==> pending || picked || removed)
            && !(pending && picked) && !(pending && removed) && !(picked && removed)
            && (removed ==> id in w.delivered)
  {
    RunKeeps(EMPTY, steps);
  }

  /** A claimed row is never served again: no later run makes it pending. */
  lemma {:induction false} ClaimedStaysClaimed(w: World, steps: seq<Step>, id: int)
    requires Inv(w) && Claimed(w.rows, w.lastId, id)
    ensures Claimed(Run(w, steps).rows, Run(w, steps).lastId, id)
    decreases |steps|
  {
    if steps != [] {
      var r := Apply(w, steps[0]);
      StepKeeps(w, steps[0]);
      assert Claimed(r.rows, r.lastId, id) by { StepKeepsClaimed(w, steps[0], id); }
      ClaimedStaysClaimed(r, steps[1..], id);
    }
  }

  lemma StepKeepsClaimed(w: World, step: Step, id: int)
    requires Inv(w) && Claimed(w.rows, w.lastId, id)
    ensures Claimed(Apply(w, step).rows, Apply(w, step).lastId, id)
  {}

  /** No message overtakes an older one: while id is pending, nothing queued after
      it has been handed to Send. */
  lemma NoOvertaking(steps: seq<Step>, id: int, k: nat)
    requires id in PendingIds(Run(EMPTY, steps).rows) && k < |Run(EMPTY, steps).attempts|
    ensures Run(EMPTY, steps).attempts[k].0 < id
  {
    RunKeeps(EMPTY, steps);
  }

  // -------------------------------------------------------- the store and poller

  class Store {
    var rows: map<int, Row>
    var lastId: int

    constructor ()
      ensures rows == map[] && lastId == 0
    {
      rows, lastId := map[], 0;
    }

    method EnqueueIMessage(recipient: string, text: string) returns (id: int)
      modifies this
      ensures id == lastId == old(lastId) + 1
      ensures rows == old(rows)[id := Row(recipient, text, Pending)]
    {
      lastId := lastId + 1;
      rows := rows[lastId := Row(recipient, text, Pending)];
      id := lastId;
    }

    /** Claims the oldest pending row. The read-only check comes first, so an empty
        queue is never written. */
    method NextIMessageOutbound(now: int) returns (ok: bool, id: int, letter: Letter)
      modifies this`rows
      ensures ok <==> PendingIds(old(rows)) != {}
      ensures !ok ==> rows == old(rows)
      ensures ok ==> id == Oldest(old(rows)) && rows == Pick(old(rows), id, now)
      ensures ok ==> letter == Letter(old(rows)[id].recipient, old(rows)[id].text)
    {
      var ids := PendingIds(rows);
      if ids == {} { return false, 0, Letter("", ""); }
      Inhabited(ids);
      id :| id in ids;
      var todo := ids;
      while todo != {}
        invariant rows == old(rows) && todo <= ids && id in ids && forall p :: p in ids ==> p in todo || id <= p
        decreases |todo|
      {
        Inhabited(todo);
        var p: int :| p in todo;
        if p < id { id := p; }
        todo := todo - {p};
      }
      assert IsOldest(rows, id);
      letter := Letter(rows[id].recipient, rows[id].text);
      rows := Pick(rows, id, now);
      ok := true;
    }

    method AckIMessage(id: int)
      modifies this`rows
      ensures rows == old(rows) - {id}
    {
      rows := rows - {id};
    }

    /** Picked, never acknowledged, and picked before the cutoff: reported in id
        order, never served. */
    method StaleIMessageOutboundIDs(now: int, maxAge: int) returns (ids: seq<int>)
      requires forall id :: id in rows ==> 1 <= id <= lastId
      ensures forall i, j :: 0 <= i < j < |ids| ==> ids[i] < ids[j]
      ensures forall id :: id in ids <==> id in rows && rows[id].status.Picked? && rows[id].status.at < now - maxAge
    {
      ids := [];
      var id := 1; // ids start at 1
      while id <= lastId
        invariant 1 <= id
        invariant forall i, j :: 0 <= i < j < |ids| ==> ids[i] < ids[j]
        invariant forall k :: k in ids <==> k < id && k in rows && rows[k].status.Picked? && rows[k].status.at < now - maxAge
      {
        if id in rows && rows[id].status.Picked? && rows[id].status.at < now - maxAge {
          assert forall i :: 0 <= i < |ids| ==> ids[i] in ids;
          ids := ids + [id];
        }
        id := id + 1;
      }
    }
  }

  /** What the world does to one poll. A crash anywhere in the poll is one of the
      outcomes that ends it early. */
  datatype ClaimFate = ClaimHeard | ClaimUnheard | ClaimRefused
  datatype SendFate = Sent | SendError
  datatype AckFate = AckDone | AckOnWire | AckNeverSent

  ghost function PollSteps(now: int, c: ClaimFate, s: SendFate, a: AckFate): seq<Step> {
    match c
    case ClaimRefused => []
    case ClaimUnheard => [ClaimLost(now)]
    case ClaimHeard =>
      if s.SendError? then [Claim(now), SendFails]
      else [Claim(now), SendOk, if a.AckDone? then AckOk else if a.AckOnWire? then AckDelayed else Crash]
  }

  class Poller {
    const store: Store
    ghost var late: set<int>
    ghost var enqueued: seq<Letter>
    ghost var attempts: seq<(int, Letter)>
    ghost var delivered: set<int>
    ghost var removed: set<int>

    ghost function View(): World
      reads this, store
    {
      World(store.rows, store.lastId, Idle, late, enqueued, attempts, delivered, removed)
    }

    constructor (store: Store)
      requires store.rows == map[] && store.lastId == 0
      ensures this.store == store && View() == EMPTY
    {
      this.store := store;
      late, enqueued, attempts, delivered, removed := {}, [], [], {}, {};
    }

    /** Claim one message, deliver it, then ack it, giving up at the first failure.
        A poll is a run of the machine, so all of its theorems hold between polls. */
    method PollOnce(now: int, c: ClaimFate, s: SendFate, a: AckFate)
      modifies this, store`rows
      ensures View() == Run(old(View()), PollSteps(now, c, s, a))
    {
      ghost var was := View();
      ghost var steps := PollSteps(now, c, s, a);
      if c == ClaimRefused { return; }
      var ok, id, letter := store.NextIMessageOutbound(now);
      if c == ClaimUnheard {
        RunOne(was, ClaimLost(now));
        return;
      }
      if !ok {
        NothingToPoll(was, now, s, a);
        return;
      }
      attempts := attempts + [(id, letter)];
      if s == SendError {
        RunTwo(was, Step.Claim(now), SendFails);
        return;
      }
      delivered := delivered + {id};
      RunThree(was, Step.Claim(now), SendOk, steps[2]);
      if a == AckDone {
        store.AckIMessage(id);
        removed := removed + {id};
      } else if a == AckOnWire {
        late := late + {id};
      }
    }
  }

  /** With nothing pending, the rest of the poll has no effect. */
  lemma NothingToPoll(w: World, now: int, s: SendFate, a: AckFate)
    requires w.bridge.Idle? && PendingIds(w.rows) == {}
    ensures Run(w, PollSteps(now, ClaimHeard, s, a)) == w
  {
    var steps := PollSteps(now, ClaimHeard, s, a);
    if s.Sent? {
      RunThree(w, steps[0], steps[1], steps[2]);
    } else {
      RunTwo(w, steps[0], steps[1]);
    }
  }

  lemma RunOne(w: World, a: Step)
    ensures Run(w, [a]) == Apply(w, a)
  {
    assert [a][1..] == [];
  }

  lemma RunTwo(w: World, a: Step, b: Step)
    ensures Run(w, [a, b]) == Apply(Apply(w, a), b)
  {
    assert [a, b][1..] == [b];
    RunOne(Apply(w, a), b);
  }

  lemma RunThree(w: World, a: Step, b: Step, c: Step)
    ensures Run(w, [a, b, c]) == Apply(Apply(Apply(w, a), b), c)
  {
    assert [a, b, c][1..] == [b, c];
    RunTwo(Apply(w, a), b, c);
  }

  /** What a fault leaves behind: a claim nobody hears of takes the oldest row out of the
      queue for good; a failed Send leaves it picked and undelivered; an ack on the wire
      leaves it picked until it arrives; a crash loses only the bridge's memory. */
  lemma FaultsMean(w: World, at: int, id: int)
    ensures PendingIds(w.rows) != {} ==>
              Apply(w, ClaimLost(at)) == w.(rows := w.rows[Oldest(w.rows) := w.rows[Oldest(w.rows)].(status := Picked(at))])
    ensures PendingIds(w.rows) == {} ==> Apply(w, ClaimLost(at)) == w && Apply(w, Step.Claim(at)) == w
    ensures w.bridge.Holding? ==>
              Apply(w, SendFails) == w.(attempts := w.attempts + [(w.bridge.id, w.bridge.letter)], bridge := Idle)
    ensures w.bridge.Unacked? ==> Apply(w, AckDelayed) == w.(late := w.late + {w.bridge.id}, bridge := Idle)
    ensures id in w.late ==> Apply(w, AckArrives(id)) == w.(rows := w.rows - {id}, removed := w.removed + {id})
    ensures Apply(w, Crash) == w.(bridge := Idle)
  {
  }

  /** What a poll leaves behind, by how far it got: nothing at all; the oldest row picked but
      unsent; attempted and picked; or sent, and gone exactly when the ack was done. */
  lemma PollMeans(w: World, now: int, c: ClaimFate, s: SendFate, a: AckFate)
    requires w.bridge.Idle? && PendingIds(w.rows) != {}
    ensures var id := Oldest(w.rows); var letter := Letter(w.rows[id].recipient, w.rows[id].text);
            var picked := w.rows[id := w.rows[id].(status := Picked(now))];
            var r := Run(w, PollSteps(now, c, s, a));
            && r.bridge == Idle && r.enqueued == w.enqueued
            && r.rows == (if c == ClaimRefused then w.rows
                          else if c == ClaimHeard && s == Sent && a == AckDone then w.rows - {id} else picked)
            && r.attempts == w.attempts + (if c == ClaimHeard then [(id, letter)] else [])
            && r.delivered == w.delivered + (if c == ClaimHeard && s == Sent then {id} else {})
            && r.removed == w.removed + (if c == ClaimHeard && s == Sent && a == AckDone then {id} else {})
            && r.late == w.late + (if c == ClaimHeard && s == Sent && a == AckOnWire then {id} else {})
  {
    var steps := PollSteps(now, c, s, a);
    if c == ClaimUnheard {
      RunOne(w, ClaimLost(now));
    } else if c == ClaimHeard {
      if s == SendError { RunTwo(w, Step.Claim(now), SendFails); } else { RunThree(w, Step.Claim(now), SendOk, steps[2]); }
      assert Pick(w.rows, Oldest(w.rows), now) - {Oldest(w.rows)} == w.rows - {Oldest(w.rows)};
    }
  }

  /** A poll that meets no fault delivers the oldest pending message and empties its
      row. */
  lemma CleanPollDelivers(w: World, now: int)
    requires w.bridge.Idle? && PendingIds(w.rows) != {}
    ensures var id := Oldest(w.rows);
            var r := Run(w, PollSteps(now, ClaimHeard, Sent, AckDone));
            && r.attempts == w.attempts + [(id, Letter(w.rows[id].recipient, w.rows[id].text))]
            && r.rows == w.rows - {id} && r.removed == w.removed + {id} && r.bridge.Idle?
  {
    var id := Oldest(w.rows);
    RunThree(w, Step.Claim(now), SendOk, AckOk);
    assert Pick(w.rows, id, now) - {id} == w.rows - {id};
  }
}
