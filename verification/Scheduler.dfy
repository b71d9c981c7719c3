/** The schedule table and the live jobs that must mirror it. */
module Scheduler {
  // Parsing a cron spec is an abstract predicate ok. A mutation is one atomic step that
  // reads the clock twice: when it validates and when it arms. Nothing is assumed about
  // those readings. A fire is two steps, before and after the job's own run, and anything
  // may happen in between.

  import opened Common

  datatype Row = Row(
    name: string, task: string, spec: string, kind: string,
    runAt: Option<int>, enabled: bool, lastRun: Option<int>)

  predicate IsOnce(r: Row) {
    r.kind == "once"
  }

  /** What fires: a cron job with its spec, or a timer with its time. */
  datatype Job = Job(id: int, name: string, task: string, spec: string, at: int)

  /** A set of live jobs under opaque handles, and the scheduler's own index of it.
      Both the cron and the runtime's timers have this shape. */
  datatype Board = Board(index: map<int, int>, live: map<int, Job>, next: int)

  /** `firing` and `firingOnce` hold the ids whose cron entry or timer has fired and whose
      run is not over. */
  datatype State = State(
    rows: map<int, Row>, cron: Board, timers: Board, started: bool, ran: seq<Job>,
    firing: multiset<int>, firingOnce: multiset<int>)

  function Disarm(b: Board, id: int): Board {
    if id in b.index then b.(live := b.live - {b.index[id]}, index := b.index - {id}) else b
  }

  function Arm(b: Board, job: Job): Board {
    Board(b.index[job.id := b.next], b.live[b.next := job], b.next + 1)
  }

  // ------------------------------------------------------------- the mirror

  predicate WantsEntry(ok: string -> bool, r: Row) {
    r.enabled && !IsOnce(r) && ok(r.spec)
  }

  predicate WantsTimer(r: Row) {
    r.enabled && IsOnce(r) && r.runAt.Some?
  }

  function EntryJob(id: int, r: Row): Job {
    Job(id, r.name, r.task, r.spec, 0)
  }

  function TimerJob(id: int, r: Row): Job
    requires r.runAt.Some?
  {
    Job(id, r.name, r.task, "", r.runAt.value)
  }

  function Entries(ok: string -> bool, rows: map<int, Row>): map<int, Job> {
    map id | id in rows && WantsEntry(ok, rows[id]) :: EntryJob(id, rows[id])
  }

  function Timers(rows: map<int, Row>): map<int, Job> {
    map id | id in rows && WantsTimer(rows[id]) :: TimerJob(id, rows[id])
  }

  /** The board holds exactly the wanted jobs, each once, and nothing else is live. The
      index may still name a timer that has fired. */
  ghost predicate Holds(b: Board, want: map<int, Job>) {
    && (forall id :: id in want ==>
          want[id].id == id && id in b.index && b.index[id] in b.live && b.live[b.index[id]] == want[id])
    && (forall h :: h in b.live ==> b.live[h].id in want && b.live[h].id in b.index && b.index[b.live[h].id] == h)
    && HandlesIssued(b)
  }

  ghost predicate HandlesIssued(b: Board) {
    && (forall h :: h in b.live ==> h < b.next)
    && (forall id :: id in b.index ==> b.index[id] < b.next && (b.index[id] in b.live ==> b.live[b.index[id]].id == id))
  }

  ghost predicate UniqueNames(rows: map<int, Row>) {
    forall i, j :: i in rows && j in rows && rows[i].name == rows[j].name ==> i == j
  }

  ghost predicate Mirror(ok: string -> bool, s: State) {
    && UniqueNames(s.rows)
    && Holds(s.cron, Entries(ok, s.rows))
    && Holds(s.timers, Timers(s.rows))
  }

  /** The rows in u are not armed yet; the boards mirror all the others. */
  ghost predicate MirrorBut(ok: string -> bool, s: State, u: set<int>) {
    && UniqueNames(s.rows)
    && Holds(s.cron, Entries(ok, s.rows) - u)
    && Holds(s.timers, Timers(s.rows) - u)
  }

  ghost predicate MirrorButSome(ok: string -> bool, s: State, u: set<int>) {
    exists v: set<int> :: v <= u && MirrorBut(ok, s, v)
  }

  /** Every row is mirrored but those whose one-time run is in flight; whichever of these was
      armed anew is mirrored too. */
  ghost predicate Tracks(ok: string -> bool, s: State) {
    MirrorButSome(ok, s, Flying(s))
  }

  function Flying(s: State): set<int> {
    set id | id in s.firingOnce
  }

  lemma NothingLeftOut(ok: string -> bool, s: State)
    ensures Mirror(ok, s) <==> MirrorBut(ok, s, {})
    ensures s.firingOnce == multiset{} ==> (Mirror(ok, s) <==> Tracks(ok, s))
    ensures Mirror(ok, s) ==> Tracks(ok, s)
  {
    assert Entries(ok, s.rows) - {} == Entries(ok, s.rows) && Timers(s.rows) - {} == Timers(s.rows);
  }

  lemma DisarmHolds(b: Board, want: map<int, Job>, id: int)
    requires Holds(b, want)
    ensures Holds(Disarm(b, id), want - {id})
  {}

  lemma ArmHolds(b: Board, want: map<int, Job>, job: Job)
    requires Holds(b, want) && job.id !in want
    ensures Holds(Arm(b, job), want[job.id := job])
  {
    var r := Arm(b, job);
    assert b.next !in b.live;
    forall h | h in r.live ensures h < r.next && r.live[h].id in r.index && r.index[r.live[h].id] == h {
      if h != b.next { assert h in b.live; }
    }
  }

  // ------------------------------------------------------------- the scheduler

  /** addTimerLocked: a past run time disables the row instead. */
  function AddTimer(s: State, id: int, r: Row, now: int): State
    requires id in s.rows
  {
    if r.runAt.None? then s
    else if r.runAt.value - now <= 0 then s.(rows := s.rows[id := s.rows[id].(enabled := false)])
    else s.(timers := Arm(s.timers, TimerJob(id, r)))
  }

  function AddEntry(ok: string -> bool, s: State, id: int, r: Row): State {
    if !ok(r.spec) then s else s.(cron := Arm(s.cron, EntryJob(id, r)))
  }

  function Schedule(ok: string -> bool, s: State, id: int, r: Row, now: int): State
    requires id in s.rows
  {
    if !r.enabled then s else if IsOnce(r) then AddTimer(s, id, r, now) else AddEntry(ok, s, id, r)
  }

  function Resync(ok: string -> bool, s: State, id: int, r: Row, now: int): State
    requires id in s.rows
  {
    Schedule(ok, s.(cron := Disarm(s.cron, id), timers := Disarm(s.timers, id)), id, r, now)
  }

  datatype Request = Request(name: string, task: string, spec: string, kind: string, runAt: Option<int>, enabled: Option<bool>)

  function Fresh(name: string): Row {
    Row(name, "", "", "", None, true, None)
  }

  /** The kind a request asks for: the row's own when it names none. */
  function KindOf(was: Option<Row>, q: Request): string {
    if q.kind != "" then q.kind
    else if was.None? || was.value.kind == "" then "recurring"
    else was.value.kind
  }

  /** The row a request would store, or None when it is rejected. */
  function Merge(ok: string -> bool, was: Option<Row>, q: Request, now: int): Option<Row> {
    var kind := KindOf(was, q);
    var sc := if was.Some? then was.value else Fresh(q.name);
    var runAt := if q.runAt.Some? then q.runAt else sc.runAt;
    var enabled := if q.enabled.Some? then q.enabled.value else sc.enabled;
    var task := if q.task != "" then q.task else sc.task;
    if q.name == "" then None
    else if q.kind != "" && q.kind != "recurring" && q.kind != "once" then None
    else if was.None? && kind == "recurring" && (q.task == "" || q.spec == "") then None
    else if was.None? && kind != "recurring" && (q.task == "" || q.runAt.None?) then None
    else if kind == "recurring" then
      if q.spec != "" && !ok(q.spec) then None
      else Some(sc.(task := task, spec := if q.spec != "" then q.spec else sc.spec, kind := "recurring", runAt := None, enabled := enabled))
    else if runAt.None? then None
    else if kind == "once" && enabled && runAt.value <= now then None
    else Some(sc.(task := task, spec := "", kind := "once", runAt := runAt, enabled := enabled))
  }

  ghost predicate Named(rows: map<int, Row>, name: string, id: int) {
    id in rows && rows[id].name == name
  }

  /** GetSchedule: names are unique, so there is at most one such id. */
  ghost function IdOf(rows: map<int, Row>, name: string): (r: Option<int>)
    ensures r.Some? ==> Named(rows, name, r.value)
    ensures r.None? ==> forall id :: !Named(rows, name, id)
  {
    if exists id :: Named(rows, name, id) then (var id :| Named(rows, name, id); Some(id)) else None
  }

  datatype Step =
    | Upsert(q: Request, newId: int, now1: int, now2: int)
    | Rename(oldName: string, newName: string, now: int)
    | SetEnabled(name: string, enabled: bool, now1: int, now2: int)
    | Delete(name: string)
    | Fire(handle: int)
    | Stamp(id: int, now: int)
    | FireOnce(handle: int, now: int)
    | EndOnce(id: int)

  /** AUTOINCREMENT issues no id a row or a run in flight has. */
  predicate Taken(s: State, id: int) {
    id in s.rows || id in s.firingOnce
  }

  ghost function DoUpsert(ok: string -> bool, s: State, q: Request, newId: int, now1: int, now2: int): State {
    var at := IdOf(s.rows, q.name);
    var merged := Merge(ok, if at.Some? then Some(s.rows[at.value]) else None, q, now1);
    var id := if at.Some? then at.value else newId;
    if merged.None? || (at.None? && Taken(s, newId)) then s
    else Resync(ok, s.(rows := s.rows[id := merged.value]), id, merged.value, now2)
  }

  ghost function DoRename(ok: string -> bool, s: State, oldName: string, newName: string, now: int): State {
    var at := IdOf(s.rows, oldName);
    if oldName == "" || newName == "" || oldName == newName || at.None? || IdOf(s.rows, newName).Some? then s
    else
      var r := s.rows[at.value].(name := newName);
      Resync(ok, s.(rows := s.rows[at.value := r]), at.value, r, now)
  }

  ghost function DoSetEnabled(ok: string -> bool, s: State, name: string, enabled: bool, now1: int, now2: int): State {
    var at := IdOf(s.rows, name);
    if at.None? then s
    else
      var sc := s.rows[at.value];
      if enabled && IsOnce(sc) && (sc.runAt.None? || sc.runAt.value <= now1) then s
      else
        var r := sc.(enabled := enabled);
        Resync(ok, s.(rows := s.rows[at.value := r]), at.value, r, now2)
  }

  ghost function DoDelete(s: State, name: string): State {
    var at := IdOf(s.rows, name);
    if at.None? then s
    else s.(rows := s.rows - {at.value}, cron := Disarm(s.cron, at.value), timers := Disarm(s.timers, at.value))
  }

  /** A cron entry fires: it runs under the name and task it was armed with. */
  function DoFire(s: State, handle: int): State {
    if handle !in s.cron.live then s
    else
      var job := s.cron.live[handle];
      s.(ran := s.ran + [job], firing := s.firing + multiset{job.id})
  }

  /** Its run is over: stamp the row, if there still is one. */
  function DoStamp(s: State, id: int, now: int): State {
    if id !in s.firing then s
    else
      s.(firing := s.firing - multiset{id},
         rows := if id in s.rows then s.rows[id := s.rows[id].(lastRun := Some(now))] else s.rows)
  }

  /** A due timer fires, and is live no more; the index still names it. */
  function DoFireOnce(s: State, handle: int, now: int): State {
    if handle !in s.timers.live || now < s.timers.live[handle].at then s
    else
      var job := s.timers.live[handle];
      s.(ran := s.ran + [job],
         timers := s.timers.(live := s.timers.live - {handle}),
         firingOnce := s.firingOnce + multiset{job.id})
  }

  /** Its run is over: delete the row and forget the timer, whichever they are by now. */
  function DoEndOnce(s: State, id: int): State {
    if id !in s.firingOnce then s
    else
      s.(firingOnce := s.firingOnce - multiset{id},
         rows := s.rows - {id},
         timers := s.timers.(index := s.timers.index - {id}))
  }

  ghost function Apply(ok: string -> bool, s: State, step: Step): State {
    match step
    case Upsert(q, newId, now1, now2) => DoUpsert(ok, s, q, newId, now1, now2)
    case Rename(o, n, now) => DoRename(ok, s, o, n, now)
    case SetEnabled(name, enabled, now1, now2) => DoSetEnabled(ok, s, name, enabled, now1, now2)
    case Delete(name) => DoDelete(s, name)
    case Fire(handle) => DoFire(s, handle)
    case Stamp(id, now) => DoStamp(s, id, now)
    case FireOnce(handle, now) => DoFireOnce(s, handle, now)
    case EndOnce(id) => DoEndOnce(s, id)
  }

  ghost function Run(ok: string -> bool, s: State, steps: seq<Step>): State
    decreases |steps|
  {
    if steps == [] then s else Run(ok, Apply(ok, s, steps[0]), steps[1..])
  }

  // ------------------------------------------------------------- preservation

  lemma WantedEntry(ok: string -> bool, rows: map<int, Row>, id: int)
    requires id in rows
    ensures Entries(ok, rows)
         == if WantsEntry(ok, rows[id]) then (Entries(ok, rows) - {id})[id := EntryJob(id, rows[id])] else Entries(ok, rows) - {id}
  {}

  lemma WantedTimer(rows: map<int, Row>, id: int)
    requires id in rows
    ensures Timers(rows)
         == if WantsTimer(rows[id]) then (Timers(rows) - {id})[id := TimerJob(id, rows[id])] else Timers(rows) - {id}
  {}

  lemma WantedElsewhere(ok: string -> bool, rows: map<int, Row>, id: int, r: Row)
    ensures Entries(ok, rows[id := r]) - {id} == Entries(ok, rows) - {id}
    ensures Timers(rows[id := r]) - {id} == Timers(rows) - {id}
  {}

  /** Arming a row whose own jobs are not on the boards puts exactly its jobs there;
      the rows in rest are still to come. The same step serves Start and every resync. */
  lemma CronSide(ok: string -> bool, s: State, id: int, now: int, rest: set<int>)
    requires id in s.rows && id !in rest && Holds(s.cron, Entries(ok, s.rows) - ({id} + rest))
    ensures var t := Schedule(ok, s, id, s.rows[id], now); Holds(t.cron, Entries(ok, t.rows) - rest)
  {
    var r := s.rows[id];
    var t := Schedule(ok, s, id, r, now);
    var others := Entries(ok, s.rows) - ({id} + rest);
    assert Entries(ok, t.rows) - rest == if WantsEntry(ok, r) then others[id := EntryJob(id, r)] else others by {
      assert t.rows == s.rows[id := t.rows[id]];
      WantedElsewhere(ok, s.rows, id, t.rows[id]);
      WantedEntry(ok, t.rows, id);
    }
    if WantsEntry(ok, r) { ArmHolds(s.cron, others, EntryJob(id, r)); }
  }

  lemma TimerSide(ok: string -> bool, s: State, id: int, now: int, rest: set<int>)
    requires id in s.rows && id !in rest && Holds(s.timers, Timers(s.rows) - ({id} + rest))
    ensures var t := Schedule(ok, s, id, s.rows[id], now); Holds(t.timers, Timers(t.rows) - rest)
  {
    var r := s.rows[id];
    var t := Schedule(ok, s, id, r, now);
    var others := Timers(s.rows) - ({id} + rest);
    var armed := WantsTimer(r) && r.runAt.value - now > 0;
    assert Timers(t.rows) - rest == if armed then others[id := TimerJob(id, r)] else others by {
      assert t.rows == s.rows[id := t.rows[id]];
      WantedElsewhere(ok, s.rows, id, t.rows[id]);
      WantedTimer(t.rows, id);
    }
    if armed { ArmHolds(s.timers, others, TimerJob(id, r)); }
  }

  /** A resync arms its row whether or not it was armed before. */
  lemma ResyncRestores(ok: string -> bool, s: State, u: set<int>, id: int, r: Row, now: int)
    requires MirrorBut(ok, s, u) && UniqueNames(s.rows[id := r])
    ensures MirrorBut(ok, Resync(ok, s.(rows := s.rows[id := r]), id, r, now), u - {id})
  {
    hide Holds, Entries, Timers, Schedule, UniqueNames;
    var rows, rest := s.rows[id := r], u - {id};
    DisarmHolds(s.cron, Entries(ok, s.rows) - u, id);
    DisarmHolds(s.timers, Timers(s.rows) - u, id);
    WantedElsewhere(ok, s.rows, id, r);
    Regroup(Entries(ok, s.rows), Entries(ok, rows), u, id);
    Regroup(Timers(s.rows), Timers(rows), u, id);
    var d := s.(rows := rows, cron := Disarm(s.cron, id), timers := Disarm(s.timers, id));
    CronSide(ok, d, id, now, rest);
    TimerSide(ok, d, id, now, rest);
    ScheduleKeepsRows(ok, d, id, now);
  }

  lemma Regroup(was: map<int, Job>, now: map<int, Job>, u: set<int>, id: int)
    requires was - {id} == now - {id}
    ensures (was - u) - {id} == now - ({id} + (u - {id}))
  {
    assert forall i :: i in was && i != id <==> i in was - {id};
    assert forall i :: i in now && i != id <==> i in now - {id};
    assert forall i :: i in was && i != id ==> was[i] == (was - {id})[i] == (now - {id})[i] == now[i];
  }

  lemma MergeKeepsName(ok: string -> bool, was: Option<Row>, q: Request, now: int)
    requires was.Some? ==> was.value.name == q.name
    ensures Merge(ok, was, q, now).Some? ==> Merge(ok, was, q, now).value.name == q.name
  {}

  lemma RowGone(ok: string -> bool, rows: map<int, Row>, u: set<int>, id: int)
    ensures Entries(ok, rows - {id}) - u == (Entries(ok, rows) - u) - {id}
    ensures Timers(rows - {id}) - u == (Timers(rows) - u) - {id}
  {
  }

  lemma DeleteKeeps(ok: string -> bool, s: State, u: set<int>, name: string)
    requires MirrorBut(ok, s, u)
    ensures MirrorBut(ok, DoDelete(s, name), u)
  {
    hide Holds, Entries, Timers, Disarm;
    var at := IdOf(s.rows, name);
    if at.Some? {
      DisarmHolds(s.cron, Entries(ok, s.rows) - u, at.value);
      DisarmHolds(s.timers, Timers(s.rows) - u, at.value);
      RowGone(ok, s.rows, u, at.value);
    }
  }

  lemma StampKeeps(ok: string -> bool, rows: map<int, Row>, id: int, now: int)
    requires id in rows && UniqueNames(rows)
    ensures var stamped := rows[id := rows[id].(lastRun := Some(now))];
            UniqueNames(stamped) && Entries(ok, stamped) == Entries(ok, rows) && Timers(stamped) == Timers(rows)
  {}

  lemma FireOnceKeeps(ok: string -> bool, s: State, u: set<int>, handle: int, now: int)
    requires MirrorBut(ok, s, u) && handle in s.timers.live && now >= s.timers.live[handle].at
    ensures MirrorBut(ok, DoFireOnce(s, handle, now), u + {s.timers.live[handle].id})
  {
    var id := s.timers.live[handle].id;
    assert id in Timers(s.rows) - u;
    assert Entries(ok, s.rows) - (u + {id}) == Entries(ok, s.rows) - u;
    assert Timers(s.rows) - (u + {id}) == (Timers(s.rows) - u) - {id};
  }

  /** No job of id is live. */
  ghost predicate Quiet(s: State, id: int) {
    forall h :: !LiveUnder(s.cron, h, id) && !LiveUnder(s.timers, h, id)
  }

  lemma EndOnceKeeps(ok: string -> bool, s: State, u: set<int>, id: int)
    requires MirrorBut(ok, s, u) && id in s.firingOnce && Quiet(s, id)
    ensures MirrorBut(ok, DoEndOnce(s, id), u - {id})
  {
    HoldsById(s.cron, Entries(ok, s.rows) - u, id);
    HoldsById(s.timers, Timers(s.rows) - u, id);
    assert Entries(ok, s.rows - {id}) - (u - {id}) == Entries(ok, s.rows) - u;
    assert Timers(s.rows - {id}) - (u - {id}) == Timers(s.rows) - u;
  }

  /** If a one-time run ends here, its job was not armed anew meanwhile. */
  ghost predicate Undisturbed(s: State, step: Step) {
    step.EndOnce? && step.id in s.firingOnce ==> Quiet(s, step.id)
  }

  lemma {:induction false} MutationKeeps(ok: string -> bool, s: State, u: set<int>, step: Step)
    requires MirrorBut(ok, s, u) && (step.Upsert? || step.Rename? || step.SetEnabled? || step.Delete?)
    ensures MirrorButSome(ok, Apply(ok, s, step), u)
  {
    hide Resync, Holds, Entries, Timers, Merge;
    match step {
      case Upsert(q, newId, now1, now2) =>
        var at := IdOf(s.rows, q.name);
        var was := if at.Some? then Some(s.rows[at.value]) else None;
        var merged := Merge(ok, was, q, now1);
        var id := if at.Some? then at.value else newId;
        MergeKeepsName(ok, was, q, now1);
        if merged.Some? && !(at.None? && Taken(s, newId)) {
          forall i | i in s.rows && s.rows[i].name == q.name ensures i == id { assert Named(s.rows, q.name, i); }
          ResyncRestores(ok, s, u, id, merged.value, now2);
        }
      case Rename(o, n, now) =>
        var at := IdOf(s.rows, o);
        if !(o == "" || n == "" || o == n || at.None? || IdOf(s.rows, n).Some?) {
          forall i | i in s.rows ensures s.rows[i].name != n { assert !Named(s.rows, n, i); }
          ResyncRestores(ok, s, u, at.value, s.rows[at.value].(name := n), now);
        }
      case SetEnabled(name, enabled, now1, now2) =>
        var at := IdOf(s.rows, name);
        if at.Some? { ResyncRestores(ok, s, u, at.value, s.rows[at.value].(enabled := enabled), now2); }
      case Delete(name) => DeleteKeeps(ok, s, u, name);
    }
  }

  lemma FireKeeps(ok: string -> bool, s: State, u: set<int>, step: Step)
    requires MirrorBut(ok, s, u) && u <= Flying(s) && Undisturbed(s, step)
    requires step.Fire? || step.Stamp? || step.FireOnce? || step.EndOnce?
    ensures Tracks(ok, Apply(ok, s, step))
  {
    hide Holds, Entries, Timers, Quiet;
    match step {
      case Fire(handle) =>
      case Stamp(id, now) => if id in s.firing && id in s.rows { StampKeeps(ok, s.rows, id, now); }
      case FireOnce(handle, now) =>
        if handle in s.timers.live && now >= s.timers.live[handle].at { FireOnceKeeps(ok, s, u, handle, now); }
      case EndOnce(id) => if id in s.firingOnce { EndOnceKeeps(ok, s, u, id); }
    }
  }

  lemma MutationsKeepFlights(ok: string -> bool, s: State, step: Step)
    requires step.Upsert? || step.Rename? || step.SetEnabled? || step.Delete?
    ensures Apply(ok, s, step).firingOnce == s.firingOnce
  {
    hide Merge;
  }

  /** Every mutation and fire keeps the mirror of every row not in flight, unless a one-time
      run ends whose job was armed anew while it ran. */
  lemma {:induction false} StepKeeps(ok: string -> bool, s: State, step: Step)
    requires Tracks(ok, s) && Undisturbed(s, step)
    ensures Tracks(ok, Apply(ok, s, step))
  {
    hide MirrorBut, Apply, Undisturbed;
    var u: set<int> :| u <= Flying(s) && MirrorBut(ok, s, u);
    if step.Upsert? || step.Rename? || step.SetEnabled? || step.Delete? {
      MutationKeeps(ok, s, u, step);
      MutationsKeepFlights(ok, s, step);
    } else {
      FireKeeps(ok, s, u, step);
    }
  }

  /** And in that case it never does: the row goes and the new job stays. */
  lemma {:induction false} StepKeepsExactlyWhen(ok: string -> bool, s: State, step: Step)
    requires Tracks(ok, s)
    ensures Tracks(ok, Apply(ok, s, step)) <==> Undisturbed(s, step)
  {
    if Undisturbed(s, step) {
      StepKeeps(ok, s, step);
    } else {
      var t := Apply(ok, s, step);
      SameLiveQuiet(s, t, step.id);
      hide MirrorBut, Quiet;
      forall v: set<int> ensures !MirrorBut(ok, t, v) { LeftoverBreaks(ok, t, v, step.id); }
    }
  }

  lemma LeftoverBreaks(ok: string -> bool, t: State, v: set<int>, id: int)
    requires id !in t.rows
    ensures MirrorBut(ok, t, v) ==> Quiet(t, id)
  {
    if MirrorBut(ok, t, v) {
      HoldsById(t.cron, Entries(ok, t.rows) - v, id);
      HoldsById(t.timers, Timers(t.rows) - v, id);
    }
  }

  ghost predicate UndisturbedRun(ok: string -> bool, s: State, steps: seq<Step>)
    decreases |steps|
  {
    steps == [] || (Undisturbed(s, steps[0]) && UndisturbedRun(ok, Apply(ok, s, steps[0]), steps[1..]))
  }

  lemma {:induction false} RunKeeps(ok: string -> bool, s: State, steps: seq<Step>)
    requires Tracks(ok, s) && UndisturbedRun(ok, s, steps)
    ensures Tracks(ok, Run(ok, s, steps))
    decreases |steps|
  {
    hide Tracks, Apply, Undisturbed;
    if steps != [] {
      StepKeeps(ok, s, steps[0]);
      RunKeeps(ok, Apply(ok, s, steps[0]), steps[1..]);
    }
  }

  // ------------------------------------------------------------------- start

  /** The rows in the order the store lists them. */
  ghost predicate Lists(order: seq<int>, rows: map<int, Row>) {
    && (forall id :: id in order <==> id in rows)
    && (forall i, j :: 0 <= i < j < |order| ==> order[i] != order[j])
  }

  function ScheduleFrom(ok: string -> bool, s: State, order: seq<int>, k: nat, clock: nat -> int): State
    requires k <= |order|
    decreases |order| - k
  {
    if k == |order| || order[k] !in s.rows then s
    else ScheduleFrom(ok, Schedule(ok, s, order[k], s.rows[order[k]], clock(k)), order, k + 1, clock)
  }

  function Start(ok: string -> bool, s: State, order: seq<int>, clock: nat -> int): State {
    if s.started then s else ScheduleFrom(ok, s.(started := true), order, 0, clock)
  }

  function Todo(order: seq<int>, k: nat): set<int>
    requires k <= |order|
  {
    set i | k <= i < |order| :: order[i]
  }

  lemma ScheduleKeepsRows(ok: string -> bool, s: State, id: int, now: int)
    requires id in s.rows
    ensures var t := Schedule(ok, s, id, s.rows[id], now);
            && t.rows.Keys == s.rows.Keys
            && (forall j :: j in s.rows && j != id ==> t.rows[j] == s.rows[j])
            && t.rows[id].(enabled := s.rows[id].enabled) == s.rows[id]
            && (t.rows[id].enabled <==>
                  s.rows[id].enabled && !(IsOnce(s.rows[id]) && s.rows[id].runAt.Some? && s.rows[id].runAt.value <= now))
            && (UniqueNames(s.rows) ==> UniqueNames(t.rows))
  {}

  lemma {:induction false} ScheduleFromHolds(ok: string -> bool, s: State, order: seq<int>, k: nat, clock: nat -> int)
    requires k <= |order| && Lists(order, s.rows) && UniqueNames(s.rows)
    requires Holds(s.cron, Entries(ok, s.rows) - Todo(order, k)) && Holds(s.timers, Timers(s.rows) - Todo(order, k))
    ensures Mirror(ok, ScheduleFrom(ok, s, order, k, clock))
    decreases |order| - k
  {
    if k == |order| {
      assert Todo(order, k) == {};
      assert Entries(ok, s.rows) - {} == Entries(ok, s.rows) && Timers(s.rows) - {} == Timers(s.rows);
    } else {
      var id := order[k];
      assert id in order;
      assert Todo(order, k) == {id} + Todo(order, k + 1);
      ScheduleKeepsRows(ok, s, id, clock(k));
      CronSide(ok, s, id, clock(k), Todo(order, k + 1));
      TimerSide(ok, s, id, clock(k), Todo(order, k + 1));
      ScheduleFromHolds(ok, Schedule(ok, s, id, s.rows[id], clock(k)), order, k + 1, clock);
    }
  }

  const EMPTY_BOARD := Board(map[], map[], 0)

  /** A scheduler just built over a table. */
  function New(rows: map<int, Row>): State {
    State(rows, EMPTY_BOARD, EMPTY_BOARD, false, [], multiset{}, multiset{})
  }

  lemma StartMirrors(ok: string -> bool, s: State, order: seq<int>, clock: nat -> int)
    requires UniqueNames(s.rows) && Lists(order, s.rows) && !s.started
    requires Holds(s.cron, map[]) && Holds(s.timers, map[])
    ensures Mirror(ok, Start(ok, s, order, clock))
  {
    AllToDo(order, s.rows);
    assert Entries(ok, s.rows) - s.rows.Keys == map[];
    assert Timers(s.rows) - s.rows.Keys == map[];
    ScheduleFromHolds(ok, s.(started := true), order, 0, clock);
  }

  // ----------------------------------------------------------------- theorems

  /** In every state after one Start and any undisturbed mutations and fires, for every id: a
      cron entry is live exactly when the row is enabled, recurring and has a valid spec; a
      timer exactly when it is an enabled one-time job with a run time; never both; and
      whatever is live under the id carries the row's current name and task. While a
      one-time run of the id is in flight, what is live is still wanted. */
  lemma {:induction false} LiveJobsMirrorTheTable(
      ok: string -> bool, rows: map<int, Row>, order: seq<int>, clock: nat -> int, steps: seq<Step>, id: int)
    requires UniqueNames(rows) && Lists(order, rows) && UndisturbedRun(ok, Start(ok, New(rows), order, clock), steps)
    ensures var s := Run(ok, Start(ok, New(rows), order, clock), steps);
            var recurring := exists h :: LiveUnder(s.cron, h, id);
            var once := exists h :: LiveUnder(s.timers, h, id);
            && (recurring ==> id in s.rows && s.rows[id].enabled && s.rows[id].kind != "once" && ok(s.rows[id].spec))
            && (once ==> id in s.rows && s.rows[id].enabled && s.rows[id].kind == "once" && s.rows[id].runAt.Some?)
            && (id !in s.firingOnce ==> ArmedAsStored(ok, s, id))
            && !(recurring && once)
            && (forall h :: LiveUnder(s.cron, h, id) ==>
                  var j := s.cron.live[h]; j.name == s.rows[id].name && j.task == s.rows[id].task && j.spec == s.rows[id].spec)
            && (forall h :: LiveUnder(s.timers, h, id) ==>
                  var j := s.timers.live[h]; j.name == s.rows[id].name && j.task == s.rows[id].task && Some(j.at) == s.rows[id].runAt)
  {
    StartMirrors(ok, New(rows), order, clock);
    var s0 := Start(ok, New(rows), order, clock);
    NothingLeftOut(ok, s0);
    RunKeeps(ok, s0, steps);
    var s := Run(ok, s0, steps);
    var u: set<int> :| u <= Flying(s) && MirrorBut(ok, s, u);
    HoldsById(s.cron, Entries(ok, s.rows) - u, id);
    HoldsById(s.timers, Timers(s.rows) - u, id);
  }

  predicate LiveUnder(b: Board, h: int, id: int) {
    h in b.live && b.live[h].id == id
  }

  predicate Indexes(b: Board, id: int, h: int) {
    id in b.index && b.index[id] == h
  }

  lemma HoldsById(b: Board, want: map<int, Job>, id: int)
    requires Holds(b, want)
    ensures (exists h :: LiveUnder(b, h, id)) <==> id in want
    ensures forall h :: LiveUnder(b, h, id) ==> id in want && b.live[h] == want[id] && Indexes(b, id, h)
  {
    if id in want { assert LiveUnder(b, b.index[id], id); }
  }

  /** No job leaks: each live cron entry and timer is the one its own id's index names, so
      the next mutation of its row reaches it. */
  lemma NoneLeaked(ok: string -> bool, rows: map<int, Row>, order: seq<int>, clock: nat -> int, steps: seq<Step>)
    requires UniqueNames(rows) && Lists(order, rows) && UndisturbedRun(ok, Start(ok, New(rows), order, clock), steps)
    ensures var s := Run(ok, Start(ok, New(rows), order, clock), steps);
            && (forall h :: h in s.cron.live ==> Indexes(s.cron, s.cron.live[h].id, h))
            && (forall h :: h in s.timers.live ==> Indexes(s.timers, s.timers.live[h].id, h))
  {
    StartMirrors(ok, New(rows), order, clock);
    var s0 := Start(ok, New(rows), order, clock);
    NothingLeftOut(ok, s0);
    RunKeeps(ok, s0, steps);
  }

  lemma SomeLive(b: Board)
    ensures b.live == map[] || exists h :: h in b.live
  {
    if forall h :: h !in b.live { assert b.live == map[]; }
  }

  /** What fires is the row as it is now, and a fired timer is live no more. */
  lemma FiresCurrentRow(ok: string -> bool, s: State, handle: int, now: int)
    requires Tracks(ok, s)
    ensures handle in s.cron.live ==>
              var job := s.cron.live[handle];
              && job.id in s.rows && s.rows[job.id].enabled
              && job.name == s.rows[job.id].name && job.task == s.rows[job.id].task
              && DoFire(s, handle) == s.(ran := s.ran + [job], firing := s.firing + multiset{job.id})
    ensures handle in s.timers.live && s.timers.live[handle].at <= now ==>
              var job := s.timers.live[handle];
              var r := DoFireOnce(s, handle, now);
              && job.id in s.rows && s.rows[job.id].runAt == Some(job.at)
              && job.name == s.rows[job.id].name && job.task == s.rows[job.id].task
              && r.ran == s.ran + [job] && Quiet(r, job.id) && r.firingOnce == s.firingOnce + multiset{job.id}
  {
    var u: set<int> :| u <= Flying(s) && MirrorBut(ok, s, u);
    if handle in s.cron.live {
      HoldsById(s.cron, Entries(ok, s.rows) - u, s.cron.live[handle].id);
      assert LiveUnder(s.cron, handle, s.cron.live[handle].id);
    }
    if handle in s.timers.live {
      var id := s.timers.live[handle].id;
      HoldsById(s.timers, Timers(s.rows) - u, id);
      HoldsById(s.cron, Entries(ok, s.rows) - u, id);
      hide Holds, Entries;
      assert LiveUnder(s.timers, handle, id);
      if s.timers.live[handle].at <= now { OnlyItsTimer(s, DoFireOnce(s, handle, now), handle, id); }
    }
  }

  /** When its run ends a one-time job leaves no row, and no job exactly when none was armed
      meanwhile. */
  lemma EndLeavesNothingExactlyWhen(s: State, id: int)
    requires id in s.firingOnce
    ensures var r := DoEndOnce(s, id); id !in r.rows && id !in r.timers.index && r.firingOnce == s.firingOnce - multiset{id} && (Quiet(r, id) <==> Quiet(s, id))
  {
    hide Quiet;
    SameLiveQuiet(s, DoEndOnce(s, id), id);
  }

  lemma OnlyItsTimer(s: State, r: State, handle: int, id: int)
    requires r.cron == s.cron && r.timers.live == s.timers.live - {handle}
    requires forall h :: !LiveUnder(s.cron, h, id)
    requires forall h :: LiveUnder(s.timers, h, id) ==> Indexes(s.timers, id, h)
    requires Indexes(s.timers, id, handle)
    ensures Quiet(r, id)
  {
    forall h ensures !LiveUnder(r.cron, h, id) && !LiveUnder(r.timers, h, id) {
      assert !LiveUnder(s.cron, h, id);
      assert LiveUnder(s.timers, h, id) ==> Indexes(s.timers, id, h);
    }
  }

  lemma SameLiveQuiet(s: State, r: State, id: int)
    requires r.cron.live == s.cron.live && r.timers.live == s.timers.live
    ensures Quiet(r, id) <==> Quiet(s, id)
  {
    assert forall h :: LiveUnder(r.cron, h, id) <==> LiveUnder(s.cron, h, id);
    assert forall h :: LiveUnder(r.timers, h, id) <==> LiveUnder(s.timers, h, id);
  }

  /** A start keeps every row; at most it disables one-time jobs. */
  lemma {:induction false} StartKeepsRows(ok: string -> bool, s: State, order: seq<int>, k: nat, clock: nat -> int, id: int)
    requires k <= |order| && Lists(order, s.rows) && id in s.rows
    ensures var t := ScheduleFrom(ok, s, order, k, clock);
            && t.rows.Keys == s.rows.Keys
            && t.rows[id].(enabled := s.rows[id].enabled) == s.rows[id]
            && (s.rows[id].enabled && !t.rows[id].enabled ==> IsOnce(s.rows[id]) && s.rows[id].runAt.Some?)
    decreases |order| - k
  {
    if k < |order| {
      assert order[k] in order;
      ScheduleKeepsRows(ok, s, order[k], clock(k));
      StartKeepsRows(ok, Schedule(ok, s, order[k], s.rows[order[k]], clock(k)), order, k + 1, clock, id);
    }
  }

  // -------------------------------------------------------- what mutations do

  /** The row as a mutation at `now` leaves it on arming: a one-time job already due ends
      disabled. */
  predicate DueOnArming(r: Row, now: int) {
    r.kind == "once" && r.runAt.Some? && r.runAt.value <= now
  }

  /** Row id is now r, disabled if it is due, and no other row has changed. */
  ghost predicate Stores(s: State, t: State, id: int, r: Row, now: int) {
    && t.rows.Keys == s.rows.Keys + {id}
    && (forall j :: j in s.rows && j != id ==> t.rows[j] == s.rows[j])
    && t.rows[id].name == r.name && t.rows[id].task == r.task && t.rows[id].spec == r.spec && t.rows[id].kind == r.kind
    && t.rows[id].runAt == r.runAt && t.rows[id].lastRun == r.lastRun
    && (t.rows[id].enabled <==> r.enabled && !DueOnArming(r, now))
  }

  /** The jobs live for id are those its row asks for, by its fields. */
  ghost predicate ArmedAsStored(ok: string -> bool, t: State, id: int) {
    && ((exists h :: LiveUnder(t.cron, h, id)) <==>
          id in t.rows && t.rows[id].enabled && t.rows[id].kind != "once" && ok(t.rows[id].spec))
    && ((exists h :: LiveUnder(t.timers, h, id)) <==>
          id in t.rows && t.rows[id].enabled && t.rows[id].kind == "once" && t.rows[id].runAt.Some?)
    && (forall h :: LiveUnder(t.cron, h, id) ==>
          var j := t.cron.live[h]; j.name == t.rows[id].name && j.task == t.rows[id].task && j.spec == t.rows[id].spec)
    && (forall h :: LiveUnder(t.timers, h, id) ==>
          var j := t.timers.live[h]; j.name == t.rows[id].name && j.task == t.rows[id].task && Some(j.at) == t.rows[id].runAt)
  }

  lemma MirrorArms(ok: string -> bool, t: State, u: set<int>, id: int)
    requires MirrorBut(ok, t, u) && id !in u
    ensures ArmedAsStored(ok, t, id)
  {
    HoldsById(t.cron, Entries(ok, t.rows) - u, id);
    HoldsById(t.timers, Timers(t.rows) - u, id);
  }

  lemma ResyncStores(ok: string -> bool, s: State, id: int, r: Row, now: int)
    ensures Stores(s, Resync(ok, s.(rows := s.rows[id := r]), id, r, now), id, r, now)
  {
    ScheduleKeepsRows(ok, s.(rows := s.rows[id := r], cron := Disarm(s.cron, id), timers := Disarm(s.timers, id)), id, now);
  }

  lemma ResyncArms(ok: string -> bool, s: State, id: int, r: Row, now: int)
    requires Tracks(ok, s) && UniqueNames(s.rows[id := r])
    ensures ArmedAsStored(ok, Resync(ok, s.(rows := s.rows[id := r]), id, r, now), id)
  {
    hide MirrorBut, Resync, ArmedAsStored;
    var u: set<int> :| u <= Flying(s) && MirrorBut(ok, s, u);
    ResyncRestores(ok, s, u, id, r, now);
    MirrorArms(ok, Resync(ok, s.(rows := s.rows[id := r]), id, r, now), u - {id}, id);
  }

  /** Enabling or disabling is refused for an unknown name and for enabling a one-time job
      without a future run time, and then changes nothing; otherwise the named row ends up as
      asked, no other row changes, and the row's live jobs are those it asks for, so a
      disabled one has none. */
  lemma EnableTakesEffect(ok: string -> bool, s: State, name: string, enabled: bool, now1: int, now2: int)
    requires Tracks(ok, s)
    ensures var at := IdOf(s.rows, name); var t := Apply(ok, s, SetEnabled(name, enabled, now1, now2));
            if at.None? then t == s
            else
              var r := s.rows[at.value];
              if enabled && r.kind == "once" && (r.runAt.None? || r.runAt.value <= now1) then t == s
              else
                && Stores(s, t, at.value, Row(r.name, r.task, r.spec, r.kind, r.runAt, enabled, r.lastRun), now2)
                && ArmedAsStored(ok, t, at.value)
                && (!enabled ==> Quiet(t, at.value) && at.value !in t.cron.index && at.value !in t.timers.index)
  {
    var at := IdOf(s.rows, name);
    TracksNames(ok, s);
    if at.Some? {
      var r := s.rows[at.value].(enabled := enabled);
      ResyncStores(ok, s, at.value, r, now2);
      ResyncArms(ok, s, at.value, r, now2);
      if !enabled { DisabledIsUnindexed(ok, s.(rows := s.rows[at.value := r]), at.value, r, now2); }
    }
    hide Tracks, Resync, UniqueNames;
  }

  lemma DisabledIsUnindexed(ok: string -> bool, s: State, id: int, r: Row, now: int)
    requires id in s.rows && !r.enabled
    ensures var t := Resync(ok, s, id, r, now); id !in t.cron.index && id !in t.timers.index
  {
  }

  lemma TracksNames(ok: string -> bool, s: State)
    requires Tracks(ok, s)
    ensures UniqueNames(s.rows)
  {
  }

  /** A rename needs two different names, the old one known and the new one free, and then
      changes the name alone; otherwise nothing. */
  lemma RenameTakesEffect(ok: string -> bool, s: State, oldName: string, newName: string, now: int)
    requires Tracks(ok, s)
    ensures var at := IdOf(s.rows, oldName); var t := Apply(ok, s, Rename(oldName, newName, now));
            if oldName == "" || newName == "" || oldName == newName || at.None? || IdOf(s.rows, newName).Some? then t == s
            else
              var r := s.rows[at.value];
              && Stores(s, t, at.value, Row(newName, r.task, r.spec, r.kind, r.runAt, r.enabled, r.lastRun), now)
              && ArmedAsStored(ok, t, at.value)
  {
    var at := IdOf(s.rows, oldName);
    TracksNames(ok, s);
    if !(oldName == "" || newName == "" || oldName == newName || at.None? || IdOf(s.rows, newName).Some?) {
      var r := s.rows[at.value].(name := newName);
      forall i | i in s.rows ensures s.rows[i].name != newName { assert !Named(s.rows, newName, i); }
      ResyncStores(ok, s, at.value, r, now);
      ResyncArms(ok, s, at.value, r, now);
    }
    hide Tracks, Resync, UniqueNames;
  }

  /** A deletion removes the named row and all its jobs, and no other row. */
  lemma DeleteTakesEffect(ok: string -> bool, s: State, name: string)
    requires Tracks(ok, s)
    ensures var at := IdOf(s.rows, name); var t := Apply(ok, s, Delete(name));
            if at.None? then t == s
            else
              && t.rows.Keys == s.rows.Keys - {at.value} && (forall j :: j in t.rows ==> t.rows[j] == s.rows[j])
              && Quiet(t, at.value) && at.value !in t.cron.index && at.value !in t.timers.index
  {
    var at := IdOf(s.rows, name);
    var u: set<int> :| u <= Flying(s) && MirrorBut(ok, s, u);
    if at.Some? {
      HoldsById(s.cron, Entries(ok, s.rows) - u, at.value);
      HoldsById(s.timers, Timers(s.rows) - u, at.value);
      assert Quiet(DoDelete(s, name), at.value) by {
        DeleteKeeps(ok, s, u, name);
        LeftoverBreaks(ok, DoDelete(s, name), u, at.value);
      }
    }
  }

  /** What a request is refused for: no name, a foreign kind, a new schedule without a task
      and a time, a spec that does not parse, no run time, or one that has passed. */
  lemma RefusedExactlyWhen(ok: string -> bool, was: Option<Row>, q: Request, now: int)
    requires was.Some? ==> was.value.kind in {"", "recurring", "once"}
    ensures var once := q.kind == "once" || (q.kind == "" && was.Some? && was.value.kind == "once");
            var runAt := if q.runAt.Some? then q.runAt else if was.Some? then was.value.runAt else None;
            var enabled := if q.enabled.Some? then q.enabled.value else if was.Some? then was.value.enabled else true;
            Merge(ok, was, q, now).None? <==>
            || q.name == ""
            || q.kind !in {"", "recurring", "once"}
            || (was.None? && (q.task == "" || (if once then q.runAt.None? else q.spec == "")))
            || (!once && q.spec != "" && !ok(q.spec))
            || (once && (runAt.None? || (enabled && runAt.value <= now)))
  {}

  /** What an accepted one stores: what it names, otherwise what was there; a new schedule is
      enabled unless it says otherwise. */
  lemma MergeMeans(ok: string -> bool, was: Option<Row>, q: Request, now: int)
    requires was.Some? ==> was.value.kind in {"", "recurring", "once"} && was.value.name == q.name
    requires Merge(ok, was, q, now).Some?
    ensures var once := q.kind == "once" || (q.kind == "" && was.Some? && was.value.kind == "once");
            var r := Merge(ok, was, q, now).value;
            && r.name == q.name
            && (q.task != "" ==> r.task == q.task) && (q.task == "" ==> was.Some? && r.task == was.value.task)
            && (q.enabled.Some? ==> r.enabled == q.enabled.value)
            && (q.enabled.None? ==> r.enabled == (was.None? || was.value.enabled))
            && (if once then
                  && r.kind == "once" && r.spec == "" && r.runAt.Some?
                  && (q.runAt.Some? ==> r.runAt == q.runAt) && (q.runAt.None? ==> was.Some? && r.runAt == was.value.runAt)
                else
                  && r.kind == "recurring" && r.runAt.None?
                  && (q.spec != "" ==> r.spec == q.spec) && (q.spec == "" ==> was.Some? && r.spec == was.value.spec))
            && r.lastRun == (if was.Some? then was.value.lastRun else None)
  {}

  /** An accepted request is stored under the id of its name, or under the new id, no other
      row changes, and the row's live jobs are those it asks for. */
  lemma UpsertTakesEffect(ok: string -> bool, s: State, q: Request, newId: int, now1: int, now2: int)
    requires Tracks(ok, s) && !Taken(s, newId)
    ensures var at := IdOf(s.rows, q.name);
            var merged := Merge(ok, if at.Some? then Some(s.rows[at.value]) else None, q, now1);
            var id := if at.Some? then at.value else newId;
            var t := Apply(ok, s, Upsert(q, newId, now1, now2));
            if merged.None? then t == s else Stores(s, t, id, merged.value, now2) && ArmedAsStored(ok, t, id)
  {
    hide Merge;
    var at := IdOf(s.rows, q.name);
    var was := if at.Some? then Some(s.rows[at.value]) else None;
    var merged := Merge(ok, was, q, now1);
    var id := if at.Some? then at.value else newId;
    TracksNames(ok, s);
    MergeKeepsName(ok, was, q, now1);
    if merged.Some? {
      forall i | i in s.rows && s.rows[i].name == q.name ensures i == id { assert Named(s.rows, q.name, i); }
      ResyncStores(ok, s, id, merged.value, now2);
      ResyncArms(ok, s, id, merged.value, now2);
    }
    hide Tracks, Resync, UniqueNames;
  }

  /** The end of a recurring run stamps its row, when it still exists, and changes nothing
      else in the table. */
  lemma StampTakesEffect(s: State, id: int, now: int)
    requires id in s.firing
    ensures var t := DoStamp(s, id, now);
            && t.rows.Keys == s.rows.Keys && (forall j :: j in s.rows && j != id ==> t.rows[j] == s.rows[j])
            && (id in s.rows ==> t.rows[id].lastRun == Some(now) && t.rows[id].(lastRun := s.rows[id].lastRun) == s.rows[id])
            && t.cron == s.cron && t.timers == s.timers && t.firing == s.firing - multiset{id}
  {
  }

  // ------------------------------------------------- mutations before the start

  /** On both boards handles are issued in order; this says nothing about the mirror. */
  ghost predicate Issued(s: State) {
    HandlesIssued(s.cron) && HandlesIssued(s.timers)
  }

  lemma ResyncNames(ok: string -> bool, s: State, id: int, r: Row, now: int)
    requires UniqueNames(s.rows[id := r])
    ensures UniqueNames(Resync(ok, s.(rows := s.rows[id := r]), id, r, now).rows)
  {
    ScheduleKeepsRows(ok, s.(rows := s.rows[id := r], cron := Disarm(s.cron, id), timers := Disarm(s.timers, id)), id, now);
  }

  lemma {:induction false} StepKeepsNames(ok: string -> bool, s: State, step: Step)
    requires UniqueNames(s.rows)
    ensures UniqueNames(Apply(ok, s, step).rows)
  {
    hide Resync, Merge;
    match step {
      case Upsert(q, newId, now1, now2) =>
        var at := IdOf(s.rows, q.name);
        var was := if at.Some? then Some(s.rows[at.value]) else None;
        var merged := Merge(ok, was, q, now1);
        var id := if at.Some? then at.value else newId;
        MergeKeepsName(ok, was, q, now1);
        if merged.Some? && !(at.None? && Taken(s, newId)) {
          forall i | i in s.rows && s.rows[i].name == q.name ensures i == id { assert Named(s.rows, q.name, i); }
          ResyncNames(ok, s, id, merged.value, now2);
        }
      case Rename(o, n, now) =>
        var at := IdOf(s.rows, o);
        if !(o == "" || n == "" || o == n || at.None? || IdOf(s.rows, n).Some?) {
          forall i | i in s.rows ensures s.rows[i].name != n { assert !Named(s.rows, n, i); }
          ResyncNames(ok, s, at.value, s.rows[at.value].(name := n), now);
        }
      case SetEnabled(name, enabled, now1, now2) =>
        var at := IdOf(s.rows, name);
        if at.Some? { ResyncNames(ok, s, at.value, s.rows[at.value].(enabled := enabled), now2); }
      case _ =>
    }
  }

  lemma BoardIssued(b: Board, job: Job, id: int)
    requires HandlesIssued(b)
    ensures HandlesIssued(Arm(b, job)) && HandlesIssued(Disarm(b, id))
  {
  }

  lemma ResyncIssued(ok: string -> bool, s: State, id: int, r: Row, now: int)
    requires Issued(s) && id in s.rows
    ensures Issued(Resync(ok, s, id, r, now))
  {
    hide HandlesIssued, Arm, Disarm;
    var job := if IsOnce(r) && r.runAt.Some? then TimerJob(id, r) else EntryJob(id, r);
    BoardIssued(s.cron, job, id);
    BoardIssued(s.timers, job, id);
    BoardIssued(Disarm(s.cron, id), job, id);
    BoardIssued(Disarm(s.timers, id), job, id);
  }

  lemma {:induction false} StepIssued(ok: string -> bool, s: State, step: Step)
    requires Issued(s)
    ensures Issued(Apply(ok, s, step))
  {
    hide Resync, Merge;
    match step {
      case Upsert(q, newId, now1, now2) =>
        var at := IdOf(s.rows, q.name);
        var merged := Merge(ok, if at.Some? then Some(s.rows[at.value]) else None, q, now1);
        var id := if at.Some? then at.value else newId;
        if merged.Some? { ResyncIssued(ok, s.(rows := s.rows[id := merged.value]), id, merged.value, now2); }
      case Rename(o, n, now) =>
        var at := IdOf(s.rows, o);
        if at.Some? {
          var r := s.rows[at.value].(name := n);
          ResyncIssued(ok, s.(rows := s.rows[at.value := r]), at.value, r, now);
        }
      case SetEnabled(name, enabled, now1, now2) =>
        var at := IdOf(s.rows, name);
        if at.Some? {
          var r := s.rows[at.value].(enabled := enabled);
          ResyncIssued(ok, s.(rows := s.rows[at.value := r]), at.value, r, now2);
        }
      case Delete(name) =>
        var at := IdOf(s.rows, name);
        if at.Some? {
          BoardIssued(s.cron, Job(0, "", "", "", 0), at.value);
          BoardIssued(s.timers, Job(0, "", "", "", 0), at.value);
        }
      case _ =>
    }
  }

  lemma StepKeepsStarted(ok: string -> bool, s: State, step: Step)
    ensures Apply(ok, s, step).started == s.started
  {
    hide Merge;
  }

  lemma {:induction false} RunKeepsNames(ok: string -> bool, s: State, steps: seq<Step>)
    requires UniqueNames(s.rows) && Issued(s)
    ensures UniqueNames(Run(ok, s, steps).rows) && Issued(Run(ok, s, steps)) && (Run(ok, s, steps).started <==> s.started)
    decreases |steps|
  {
    hide UniqueNames, Issued, Apply;
    if steps != [] {
      StepKeepsNames(ok, s, steps[0]);
      StepIssued(ok, s, steps[0]);
      StepKeepsStarted(ok, s, steps[0]);
      RunKeepsNames(ok, Apply(ok, s, steps[0]), steps[1..]);
    }
  }

  /** A live job under h that its id's index no longer names, or that no row wants. */
  ghost predicate StaleEntry(ok: string -> bool, s: State, h: int, id: int) {
    && LiveUnder(s.cron, h, id) && h < s.cron.next
    && ((id in s.cron.index && s.cron.index[id] != h) || id !in s.rows || !WantsEntry(ok, s.rows[id]))
  }

  ghost predicate StaleTimer(s: State, h: int, id: int) {
    && LiveUnder(s.timers, h, id) && h < s.timers.next
    && ((id in s.timers.index && s.timers.index[id] != h) || id !in s.rows || !WantsTimer(s.rows[id]))
  }

  ghost predicate Broken(ok: string -> bool, s: State, h: int, id: int) {
    StaleEntry(ok, s, h, id) || StaleTimer(s, h, id)
  }

  lemma {:induction false} BrokenStays(ok: string -> bool, s: State, order: seq<int>, k: nat, clock: nat -> int, h: int, id: int)
    requires k <= |order| && Broken(ok, s, h, id)
    ensures Broken(ok, ScheduleFrom(ok, s, order, k, clock), h, id)
    decreases |order| - k
  {
    if k < |order| && order[k] in s.rows {
      ScheduleKeepsRows(ok, s, order[k], clock(k));
      BrokenStays(ok, Schedule(ok, s, order[k], s.rows[order[k]], clock(k)), order, k + 1, clock, h, id);
    }
  }

  /** A job on one of the boards under handle h. */
  ghost predicate Armed(s: State, h: int, id: int) {
    (LiveUnder(s.cron, h, id) && h < s.cron.next) || (LiveUnder(s.timers, h, id) && h < s.timers.next)
  }

  /** Arming its row leaves it behind, arming another leaves it where it is. */
  lemma ScheduleLeavesBehind(ok: string -> bool, s: State, i: int, now: int, h: int, id: int)
    requires i in s.rows && id in s.rows && Armed(s, h, id)
    ensures var t := Schedule(ok, s, i, s.rows[i], now); if i == id then Broken(ok, t, h, id) else Armed(t, h, id)
  {
    ScheduleKeepsRows(ok, s, i, now);
  }

  /** So a job that was live before Start is left behind by it: its row, when there is one,
      is armed under another handle or wants no job. */
  lemma {:induction false} ArmedIsLeftBehind(ok: string -> bool, s: State, order: seq<int>, k: nat, clock: nat -> int, h: int, id: int)
    requires k <= |order| && Lists(order, s.rows) && (id in Todo(order, k) || id !in s.rows) && Armed(s, h, id)
    ensures Broken(ok, ScheduleFrom(ok, s, order, k, clock), h, id)
    decreases |order| - k
  {
    if id !in s.rows {
      BrokenStays(ok, s, order, k, clock, h, id);
    } else {
      assert order[k] in order;
      var t := Schedule(ok, s, order[k], s.rows[order[k]], clock(k));
      ScheduleKeepsRows(ok, s, order[k], clock(k));
      ScheduleLeavesBehind(ok, s, order[k], clock(k), h, id);
      hide Armed, Broken, Schedule;
      if order[k] == id {
        BrokenStays(ok, t, order, k + 1, clock, h, id);
      } else {
        ArmedIsLeftBehind(ok, t, order, k + 1, clock, h, id);
      }
    }
  }

  lemma AllToDo(order: seq<int>, rows: map<int, Row>)
    requires Lists(order, rows)
    ensures Todo(order, 0) == rows.Keys
  {
    forall id | id in rows ensures id in Todo(order, 0) {
      assert id in order;
      var i :| 0 <= i < |order| && order[i] == id;
    }
    forall id | id in Todo(order, 0) ensures id in rows { assert id in order; }
  }

  lemma {:induction false} StartMirrorsIff(ok: string -> bool, s: State, order: seq<int>, clock: nat -> int)
    requires UniqueNames(s.rows) && Issued(s) && Lists(order, s.rows) && !s.started
    ensures Mirror(ok, Start(ok, s, order, clock)) <==> s.cron.live == map[] && s.timers.live == map[]
  {
    var t := Start(ok, s, order, clock);
    AllToDo(order, s.rows);
    SomeLive(s.cron);
    SomeLive(s.timers);
    if h :| h in s.cron.live {
      assert LiveUnder(s.cron, h, s.cron.live[h].id);
      ArmedIsLeftBehind(ok, s.(started := true), order, 0, clock, h, s.cron.live[h].id);
    } else if h :| h in s.timers.live {
      assert LiveUnder(s.timers, h, s.timers.live[h].id);
      ArmedIsLeftBehind(ok, s.(started := true), order, 0, clock, h, s.timers.live[h].id);
    } else {
      assert Holds(s.cron, map[]) && Holds(s.timers, map[]);
      StartMirrors(ok, s, order, clock);
    }
  }

  /** Over any table, and after whatever mutations and fires came before it, Start is right
      exactly when nothing is armed as it runs: it never disarms, so a schedule saved and
      armed earlier is armed a second time and one job leaks. */
  lemma StartMirrorsIffNothingArmed(ok: string -> bool, rows: map<int, Row>, early: seq<Step>, order: seq<int>, clock: nat -> int)
    requires UniqueNames(rows) && Lists(order, Run(ok, New(rows), early).rows)
    ensures var s := Run(ok, New(rows), early);
            Mirror(ok, Start(ok, s, order, clock)) <==> s.cron.live == map[] && s.timers.live == map[]
  {
    hide Run, Mirror, Start, Lists;
    RunKeepsNames(ok, New(rows), early);
    StartMirrorsIff(ok, Run(ok, New(rows), early), order, clock);
  }

  const EARLY := Request("news", "read the news", "0 8 * * *", "", None, None)

  lemma EarlyUpsert(ok: string -> bool)
    requires ok(EARLY.spec)
    ensures var row := Row("news", "read the news", "0 8 * * *", "recurring", None, true, None);
            DoUpsert(ok, New(map[]), EARLY, 1, 0, 0)
            == State(map[1 := row], Board(map[1 := 0], map[0 := EntryJob(1, row)], 1), EMPTY_BOARD, false, [], multiset{}, multiset{})
  {
    assert IdOf(New(map[]).rows, "news") == None;
  }

  /** One upsert before Start leaves two live entries for the same schedule. */
  lemma UpsertThenStartLeaksOne(ok: string -> bool, clock: nat -> int)
    requires ok(EARLY.spec)
    ensures var s := Run(ok, New(map[]), [Upsert(EARLY, 1, 0, 0)]);
            && Lists([1], s.rows)
            && LiveUnder(Start(ok, s, [1], clock).cron, 0, 1) && LiveUnder(Start(ok, s, [1], clock).cron, 1, 1)
  {
    EarlyUpsert(ok);
    hide DoUpsert;
    var s := Run(ok, New(map[]), [Upsert(EARLY, 1, 0, 0)]);
    assert [Upsert(EARLY, 1, 0, 0)][1..] == [];
    assert s == Run(ok, Apply(ok, New(map[]), Upsert(EARLY, 1, 0, 0)), []);
    assert s == DoUpsert(ok, New(map[]), EARLY, 1, 0, 0);
    var row := s.rows[1];
    assert Start(ok, s, [1], clock) == ScheduleFrom(ok, Schedule(ok, s.(started := true), 1, row, clock(0)), [1], 1, clock);
  }

  const ONE_TIME := Request("call", "call home", "", "once", Some(10), None)
  const AGAIN := Request("call", "", "", "once", Some(20), None)

  function CallRow(at: int): Row {
    Row("call", "call home", "", "once", Some(at), true, None)
  }

  lemma SaveCall(ok: string -> bool)
    ensures Apply(ok, New(map[]), Upsert(ONE_TIME, 1, 0, 0))
         == New(map[1 := CallRow(10)]).(timers := Board(map[1 := 0], map[0 := TimerJob(1, CallRow(10))], 1))
  {
    assert IdOf(New(map[]).rows, "call") == None;
  }

  lemma FireCall(s: State)
    requires s == New(map[1 := CallRow(10)]).(timers := Board(map[1 := 0], map[0 := TimerJob(1, CallRow(10))], 1))
    ensures DoFireOnce(s, 0, 10)
         == s.(timers := Board(map[1 := 0], map[], 1), ran := [TimerJob(1, CallRow(10))], firingOnce := multiset{1})
  {
  }

  lemma EndCall(s: State)
    requires s.rows == map[1 := CallRow(20)] && s.timers == Board(map[1 := 1], map[1 := TimerJob(1, CallRow(20))], 2)
    requires 1 in s.firingOnce
    ensures DoEndOnce(s, 1).rows == map[] && DoEndOnce(s, 1).timers == Board(map[], map[1 := TimerJob(1, CallRow(20))], 2)
  {
  }

  lemma SavedCallTracks(ok: string -> bool, s: State)
    requires s == New(map[1 := CallRow(10)]).(timers := Board(map[1 := 0], map[0 := TimerJob(1, CallRow(10))], 1))
    ensures Tracks(ok, s)
  {
    assert Entries(ok, s.rows) == map[] && Timers(s.rows) == map[1 := TimerJob(1, CallRow(10))];
    assert Mirror(ok, s);
    NothingLeftOut(ok, s);
  }

  /** A one-time job that moves itself to a later time while it runs: when the run ends the
      row goes, and the new timer is left to fire for a schedule that is no more. */
  lemma MovedWhileRunningLeaks(ok: string -> bool)
    ensures var s := Apply(ok, New(map[]), Upsert(ONE_TIME, 1, 0, 0));
            var t := Apply(ok, Apply(ok, Apply(ok, s, FireOnce(0, 10)), Upsert(AGAIN, 2, 10, 10)), EndOnce(1));
            Tracks(ok, s) && t.rows == map[] && t.timers == Board(map[], map[1 := TimerJob(1, CallRow(20))], 2)
  {
    SaveCall(ok);
    hide DoUpsert, DoFireOnce, DoEndOnce, Tracks;
    var s := Apply(ok, New(map[]), Upsert(ONE_TIME, 1, 0, 0));
    SavedCallTracks(ok, s);
    FireCall(s);
    var f := DoFireOnce(s, 0, 10);
    MoveCall(ok, f);
    EndCall(DoUpsert(ok, f, AGAIN, 2, 10, 10));
  }

  lemma MoveCall(ok: string -> bool, f: State)
    requires f.timers == Board(map[1 := 0], map[], 1) && f.rows == map[1 := CallRow(10)] && f.cron == EMPTY_BOARD
    ensures DoUpsert(ok, f, AGAIN, 2, 10, 10)
         == f.(rows := map[1 := CallRow(20)], timers := Board(map[1 := 1], map[1 := TimerJob(1, CallRow(20))], 2))
  {
    assert Named(f.rows, "call", 1);
    assert IdOf(f.rows, "call") == Some(1);
  }

  /** An accepted request never stores an enabled one-time job in the past or without a
      run time, nor a new spec that does not parse; a recurring row keeps no run time
      and a one-time row no spec. */
  lemma MergeIsWellFormed(ok: string -> bool, was: Option<Row>, q: Request, now: int)
    requires was.Some? ==> was.value.kind in {"", "recurring", "once"}
    ensures var m := Merge(ok, was, q, now);
            m.Some? ==>
              var r := m.value;
              && r.kind in {"recurring", "once"}
              && (r.kind == "once" ==> r.runAt.Some? && r.spec == "" && (r.enabled ==> r.runAt.value > now))
              && (r.kind == "recurring" ==> r.runAt.None? && (ok(r.spec) || (was.Some? && r.spec == was.value.spec)))
              && (q.task == "" ==> was.Some? && r.task == was.value.task)
              && (was.Some? ==> r.lastRun == was.value.lastRun)
  {}

  // -------------------------------------------------------------- the object

  class Scheduler {
    const ok: string -> bool
    var rows: map<int, Row>
    var cron: Board
    var timers: Board
    var started: bool
    ghost var ran: seq<Job>
    ghost var firing: multiset<int>
    ghost var firingOnce: multiset<int>

    ghost function View(): State
      reads this
    {
      State(rows, cron, timers, started, ran, firing, firingOnce)
    }

    ghost predicate Valid()
      reads this
    {
      Tracks(ok, View())
    }

    constructor (ok: string -> bool, rows: map<int, Row>)
      ensures this.ok == ok && View() == New(rows)
    {
      this.ok := ok;
      this.rows, cron, timers, started, ran := rows, EMPTY_BOARD, EMPTY_BOARD, false, [];
      firing, firingOnce := multiset{}, multiset{};
    }

    method StartAll(order: seq<int>, clock: nat -> int)
      requires Lists(order, rows)
      modifies this
      ensures View() == Start(ok, old(View()), order, clock)
    {
      if started { return; }
      started := true;
      ghost var goal := ScheduleFrom(ok, View(), order, 0, clock);
      var k := 0;
      while k < |order|
        invariant 0 <= k <= |order| && started
        invariant forall id :: id in order ==> id in rows
        invariant ScheduleFrom(ok, View(), order, k, clock) == goal
      {
        assert order[k] in order;
        ScheduleRow(order[k], rows[order[k]], clock(k));
        k := k + 1;
      }
    }

    method ScheduleRow(id: int, r: Row, now: int)
      requires id in rows
      modifies this
      ensures View() == Schedule(ok, old(View()), id, r, now)
      ensures rows.Keys == old(rows).Keys && started == old(started)
    {
      if !r.enabled { return; }
      if r.kind == "once" {
        if r.runAt.None? { return; }
        if r.runAt.value - now <= 0 {
          rows := rows[id := rows[id].(enabled := false)];
          return;
        }
        timers := Arm(timers, TimerJob(id, r));
        return;
      }
      if !ok(r.spec) { return; }
      cron := Arm(cron, EntryJob(id, r));
    }

    method ResyncRow(id: int, r: Row, now: int)
      requires id in rows
      modifies this
      ensures View() == Resync(ok, old(View()), id, r, now)
    {
      Unschedule(id);
      ScheduleRow(id, r, now);
    }

    method Unschedule(id: int)
      modifies this`cron, this`timers
      ensures cron == Disarm(old(cron), id) && timers == Disarm(old(timers), id)
    {
      if id in cron.index {
        cron := cron.(live := cron.live - {cron.index[id]});
        cron := cron.(index := cron.index - {id});
      }
      if id in timers.index {
        timers := timers.(live := timers.live - {timers.index[id]});
        timers := timers.(index := timers.index - {id});
      }
    }

    method GetSchedule(name: string) returns (at: Option<int>)
      requires UniqueNames(rows)
      ensures at == IdOf(rows, name)
    {
      var found := set id | id in rows && rows[id].name == name;
      Inhabited(found);
      if found == {} {
        forall id ensures !Named(rows, name, id) { assert id !in found; }
        return None;
      }
      var id: int :| id in found;
      assert Named(rows, name, id);
      return Some(id);
    }

    method UpsertFull(q: Request, newId: int, now1: int, now2: int) returns (saved: bool)
      requires UniqueNames(rows) && !Taken(View(), newId)
      modifies this
      ensures (old(Valid()) ==> Valid()) && UniqueNames(rows) && View() == DoUpsert(ok, old(View()), q, newId, now1, now2)
      ensures saved <==> (var at := IdOf(old(rows), q.name);
                          Merge(ok, if at.Some? then Some(old(rows)[at.value]) else None, q, now1).Some?)
    {
      hide Holds, Entries, Timers, Merge;
      Kept(ok, View(), Upsert(q, newId, now1, now2));
      var at := GetSchedule(q.name);
      var merged := Merge(ok, if at.Some? then Some(rows[at.value]) else None, q, now1);
      if merged.None? { return false; }
      var id := if at.Some? then at.value else newId;
      rows := rows[id := merged.value];
      ResyncRow(id, merged.value, now2);
      return true;
    }

    method RenameTo(oldName: string, newName: string, now: int) returns (done: bool)
      requires UniqueNames(rows)
      modifies this
      ensures (old(Valid()) ==> Valid()) && UniqueNames(rows) && View() == DoRename(ok, old(View()), oldName, newName, now)
      ensures done <==>
              && oldName != "" && newName != "" && IdOf(old(rows), oldName).Some?
              && (oldName == newName || IdOf(old(rows), newName).None?)
    {
      hide Holds, Entries, Timers;
      Kept(ok, View(), Rename(oldName, newName, now));
      if oldName == "" || newName == "" { return false; }
      var at := GetSchedule(oldName);
      if oldName == newName || at.None? { return at.Some?; }
      var taken := GetSchedule(newName);
      if taken.Some? { return false; }
      var r := rows[at.value].(name := newName);
      rows := rows[at.value := r];
      ResyncRow(at.value, r, now);
      return true;
    }

    method Enable(name: string, enabled: bool, now1: int, now2: int) returns (done: bool)
      requires UniqueNames(rows)
      modifies this
      ensures (old(Valid()) ==> Valid()) && UniqueNames(rows) && View() == DoSetEnabled(ok, old(View()), name, enabled, now1, now2)
      ensures done <==> (var at := IdOf(old(rows), name);
                         at.Some? && (enabled && IsOnce(old(rows)[at.value]) ==>
                                        old(rows)[at.value].runAt.Some? && old(rows)[at.value].runAt.value > now1))
    {
      hide Holds, Entries, Timers;
      Kept(ok, View(), SetEnabled(name, enabled, now1, now2));
      var at := GetSchedule(name);
      if at.None? { return false; }
      var sc := rows[at.value];
      if enabled && sc.kind == "once" && (sc.runAt.None? || sc.runAt.value <= now1) { return false; }
      sc := sc.(enabled := enabled);
      rows := rows[at.value := sc];
      ResyncRow(at.value, sc, now2);
      return true;
    }

    method Remove(name: string) returns (done: bool)
      requires UniqueNames(rows)
      modifies this
      ensures (old(Valid()) ==> Valid()) && UniqueNames(rows) && View() == DoDelete(old(View()), name)
      ensures done <==> IdOf(old(rows), name).Some?
    {
      hide Holds, Entries, Timers;
      Kept(ok, View(), Delete(name));
      var at := GetSchedule(name);
      if at.None? { return false; }
      rows := rows - {at.value};
      Unschedule(at.value);
      return true;
    }

    /** A cron entry's callback begins. */
    method FireEntry(handle: int)
      requires handle in cron.live
      modifies this
      ensures (old(Valid()) ==> Valid()) && View() == DoFire(old(View()), handle)
    {
      hide Tracks;
      Kept(ok, View(), Fire(handle));
      var job := cron.live[handle];
      ran := ran + [job];
      firing := firing + multiset{job.id};
    }

    /** And ends. */
    method StampRun(id: int, now: int)
      requires id in firing
      modifies this
      ensures (old(Valid()) ==> Valid()) && View() == DoStamp(old(View()), id, now)
    {
      hide Tracks;
      Kept(ok, View(), Stamp(id, now));
      firing := firing - multiset{id};
      if id in rows { rows := rows[id := rows[id].(lastRun := Some(now))]; }
    }

    /** A due timer's callback begins. */
    method FireTimer(handle: int, now: int)
      requires handle in timers.live && timers.live[handle].at <= now
      modifies this
      ensures (old(Valid()) ==> Valid()) && View() == DoFireOnce(old(View()), handle, now)
    {
      hide Tracks;
      Kept(ok, View(), FireOnce(handle, now));
      var job := timers.live[handle];
      timers := timers.(live := timers.live - {handle});
      ran := ran + [job];
      firingOnce := firingOnce + multiset{job.id};
    }

    /** And ends. */
    method EndTimer(id: int)
      requires id in firingOnce
      modifies this
      ensures (old(Valid()) ==> (Valid() <==> old(Quiet(View(), id)))) && View() == DoEndOnce(old(View()), id)
    {
      hide Tracks, Quiet;
      if Tracks(ok, View()) { StepKeepsExactlyWhen(ok, View(), EndOnce(id)); }
      rows := rows - {id};
      timers := timers.(index := timers.index - {id});
      firingOnce := firingOnce - multiset{id};
    }
  }

  /** What every mutation and fire short of the end of a one-time run keeps. */
  lemma Kept(ok: string -> bool, s: State, step: Step)
    requires !step.EndOnce?
    ensures Tracks(ok, s) ==> Tracks(ok, Apply(ok, s, step))
    ensures UniqueNames(s.rows) ==> UniqueNames(Apply(ok, s, step).rows)
  {
    hide Tracks, Apply;
    if Tracks(ok, s) { StepKeeps(ok, s, step); }
    if UniqueNames(s.rows) { StepKeepsNames(ok, s, step); }
  }
}
