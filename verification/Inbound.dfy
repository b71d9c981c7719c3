/** Inbound iMessage forwarding. */
module Inbound {
  // A watcher that scans chat.db above a ROWID watermark, posts each qualifying row to the
  // server and saves the watermark in a file that is written aside and renamed into place.
  // Any POST, file operation or query may fail, any response may be lost, a request may
  // reach the server long after the watcher has given up on it, and the process may die
  // between any two steps.

  import opened Common

  /** One chat.db message: a row without a handle row joins to NULL; `media` counts the
      attachments the bridge can build, and `fits` says whether the posted body stays
      within the server's limit. */
  datatype ChatRow = ChatRow(id: int, qualifies: bool, handle: Option<string>, text: string, media: nat, fits: bool)

  /** A file's bytes: a whole JSON document with the watermark, or a torn write. */
  datatype Content = Whole(watermark: int) | Torn

  datatype Disk = Disk(state: Option<Content>, tmp: Option<Content>)

  datatype Process =
    | Down
    | Ready
    | Scanning(rest: seq<ChatRow>)
    | Writing(rest: seq<ChatRow>, boot: bool)    // about to write the temporary file
    | Renaming(rest: seq<ChatRow>, boot: bool)   // about to rename it into place

  /** `watermark` is the in-memory lastRowID, meaningful while the process is up.
      `accepted` lists the rows the server took, in order, with repeats. `late` holds the
      requests still on the wire after the watcher timed out. `base` is the row up to
      which history was skipped on purpose. */
  datatype World = World(
    chat: seq<ChatRow>,
    disk: Disk,
    process: Process,
    watermark: int,
    accepted: seq<int>,
    late: multiset<int>,
    base: int)

  datatype Step =
    | NewRow(row: ChatRow)
    | Boot(readable: bool)
    | Query(readable: bool)
    | PostHeard               // accepted, and the watcher hears of it
    | PostUnheard             // accepted, but the response is lost
    | PostDelayed             // timed out with the request still on its way
    | LateArrives(id: int)    // such a request reaches the server after all
    | PostRefused
    | WriteOk
    | WriteFails(torn: bool)
    | RenameOk
    | RenameFails
    | ScanEnds
    | Crash(torn: bool)       // a crash while writing may leave a torn temporary file

  function MaxId(chat: seq<ChatRow>): int {
    if chat == [] then 0 else chat[|chat| - 1].id
  }

  /** newMessagesQuery: every qualifying row above the watermark, in ROWID order. */
  function Select(chat: seq<ChatRow>, after: int): seq<ChatRow> {
    if chat == [] then []
    else (if chat[0].qualifies && chat[0].id > after then [chat[0]] else []) + Select(chat[1..], after)
  }

  /** Scanning a NULL handle into a string fails the whole query. */
  predicate Scannable(rows: seq<ChatRow>) {
    forall k :: 0 <= k < |rows| ==> rows[k].handle.Some?
  }

  /** The server's own guard: it refuses an oversized body, a message without a handle and
      one with neither text nor media. */
  predicate Deliverable(row: ChatRow) {
    row.fits && row.handle.Some? && row.handle.value != "" && (row.text != "" || row.media > 0)
  }

  /** What loadState finds: a missing file is a zero state, a torn one an error. */
  function Loaded(d: Disk): Option<int> {
    match d.state
    case None => Some(0)
    case Some(Whole(n)) => Some(n)
    case Some(Torn) => None
  }

  predicate CanPost(w: World) {
    w.process.Scanning? && w.process.rest != [] && Deliverable(w.process.rest[0])
  }

  function AfterSave(p: Process, ok: bool): Process
    requires p.Writing? || p.Renaming?
  {
    if !p.boot then Scanning(p.rest) else if ok then Ready else Down
  }

  function Apply(w: World, step: Step): World {
    match step
    case NewRow(row) => if row.id > MaxId(w.chat) then w.(chat := w.chat + [row]) else w
    case Boot(readable) =>
      if !w.process.Down? || Loaded(w.disk).None? then w
      else if Loaded(w.disk).value > 0 then w.(process := Ready, watermark := Loaded(w.disk).value)
      else if !readable then w
      else w.(process := Writing([], true), watermark := MaxId(w.chat), base := MaxId(w.chat))
    case Query(readable) =>
      var rows := Select(w.chat, w.watermark);
      if w.process.Ready? && readable && Scannable(rows) then w.(process := Scanning(rows)) else w
    case PostHeard =>
      if CanPost(w) then
        var row := w.process.rest[0];
        w.(accepted := w.accepted + [row.id], watermark := row.id, process := Writing(w.process.rest[1..], false))
      else w
    case PostUnheard =>
      if CanPost(w) then w.(accepted := w.accepted + [w.process.rest[0].id], process := Ready) else w
    case PostDelayed =>
      if CanPost(w) then w.(late := w.late + multiset{w.process.rest[0].id}, process := Ready) else w
    case LateArrives(id) =>
      if id in w.late then w.(accepted := w.accepted + [id], late := w.late - multiset{id}) else w
    case PostRefused => if w.process.Scanning? && w.process.rest != [] then w.(process := Ready) else w
    case WriteOk =>
      if w.process.Writing?
      then w.(disk := w.disk.(tmp := Some(Whole(w.watermark))), process := Renaming(w.process.rest, w.process.boot))
      else w
    case WriteFails(torn) =>
      if w.process.Writing?
      then w.(disk := if torn then w.disk.(tmp := Some(Torn)) else w.disk, process := AfterSave(w.process, false))
      else w
    case RenameOk =>
      if w.process.Renaming? then w.(disk := Disk(w.disk.tmp, None), process := AfterSave(w.process, true)) else w
    case RenameFails => if w.process.Renaming? then w.(process := AfterSave(w.process, false)) else w
    case ScanEnds => if w.process == Scanning([]) then w.(process := Ready) else w
    case Crash(torn) =>
      w.(disk := if w.process.Writing? && torn then w.disk.(tmp := Some(Torn)) else w.disk, process := Down)
  }

  function Run(w: World, steps: seq<Step>): World
    decreases |steps|
  {
    if steps == [] then w else Run(Apply(w, steps[0]), steps[1..])
  }

  // -------------------------------------------------------------- invariant

  ghost predicate Ascending(rows: seq<ChatRow>) {
    forall i, j :: 0 <= i < j < |rows| ==> rows[i].id < rows[j].id
  }

  predicate Owed(r: ChatRow, lo: int, hi: int) {
    r.qualifies && lo < r.id <= hi
  }

  /** Every row the watcher owes the server up to n has been accepted. */
  ghost predicate NoGaps(chat: seq<ChatRow>, base: int, n: int, accepted: seq<int>) {
    forall r :: r in chat && Owed(r, base, n) ==> r.id in accepted
  }

  /** What is left of a scan is every owed row from just above the watermark up to
      its last one. */
  ghost predicate ScanOk(chat: seq<ChatRow>, watermark: int, rest: seq<ChatRow>) {
    && Ascending(rest)
    && (forall r :: r in rest ==> r in chat && r.qualifies && r.id > watermark)
    && (rest != [] ==> forall r :: r in chat && Owed(r, watermark, rest[|rest| - 1].id) ==> r in rest)
  }

  ghost predicate Usable(chat: seq<ChatRow>, id: int) {
    exists r :: r in chat && r.id == id && r.qualifies && Deliverable(r)
  }

  /** Only rows the server can take are ever accepted or on the wire. */
  ghost predicate OnlyDeliverable(chat: seq<ChatRow>, accepted: seq<int>, late: multiset<int>) {
    forall id :: id in accepted || id in late ==> Usable(chat, id)
  }

  ghost predicate ChatOk(chat: seq<ChatRow>) {
    Ascending(chat) && (forall r :: r in chat ==> 0 < r.id <= MaxId(chat))
  }

  predicate SavedAtMost(d: Disk, n: int) {
    d.state.Some? && d.state.value.Whole? ==> d.state.value.watermark <= n
  }

  ghost predicate Running(w: World) {
    && w.base <= w.watermark <= MaxId(w.chat)
    && NoGaps(w.chat, w.base, w.watermark, w.accepted)
    && SavedAtMost(w.disk, w.watermark)
    && (w.process.Scanning? || w.process.Writing? || w.process.Renaming? ==> ScanOk(w.chat, w.watermark, w.process.rest))
    && (w.process.Renaming? ==> w.disk.tmp == Some(Whole(w.watermark)))
  }

  ghost predicate DiskOk(w: World) {
    && w.disk.state != Some(Torn)
    && (w.disk.state.Some? && w.disk.state.value.watermark > 0 ==>
         && w.base <= w.disk.state.value.watermark <= MaxId(w.chat)
         && NoGaps(w.chat, w.base, w.disk.state.value.watermark, w.accepted))
  }

  ghost predicate Inv(w: World) {
    && ChatOk(w.chat)
    && OnlyDeliverable(w.chat, w.accepted, w.late)
    && DiskOk(w)
    && (!w.process.Down? ==> Running(w))
  }

  lemma {:induction false} SelectMembers(chat: seq<ChatRow>, after: int, r: ChatRow)
    ensures r in Select(chat, after) <==> r in chat && r.qualifies && r.id > after
  {
    if chat != [] {
      SelectMembers(chat[1..], after, r);
      assert r in chat <==> r == chat[0] || r in chat[1..];
    }
  }

  lemma {:induction false} SelectAscends(chat: seq<ChatRow>, after: int)
    requires Ascending(chat)
    ensures Ascending(Select(chat, after))
  {
    if chat != [] {
      SelectAscends(chat[1..], after);
      forall k | 0 <= k < |Select(chat[1..], after)| ensures chat[0].id < Select(chat[1..], after)[k].id {
        SelectMembers(chat[1..], after, Select(chat[1..], after)[k]);
        var j :| 0 <= j < |chat[1..]| && chat[1..][j] == Select(chat[1..], after)[k];
        assert chat[j + 1] == chat[1..][j];
      }
    }
  }

  lemma {:induction false} SelectOk(chat: seq<ChatRow>, after: int)
    requires Ascending(chat)
    ensures ScanOk(chat, after, Select(chat, after))
  {
    SelectAscends(chat, after);
    forall r ensures r in Select(chat, after) <==> r in chat && r.qualifies && r.id > after {
      SelectMembers(chat, after, r);
    }
  }

  lemma ChatGrows(chat: seq<ChatRow>, row: ChatRow)
    requires ChatOk(chat) && row.id > MaxId(chat)
    ensures ChatOk(chat + [row])
  {
    var more := chat + [row];
    assert MaxId(more) == row.id && 0 <= MaxId(chat);
    forall i, j | 0 <= i < j < |more| ensures more[i].id < more[j].id {
      assert more[i] in chat;
      assert j < |chat| ==> more[j] == chat[j];
    }
    assert forall r :: r in more ==> r == row || r in chat;
  }

  lemma NoGapsGrows(chat: seq<ChatRow>, row: ChatRow, base: int, n: int, accepted: seq<int>)
    requires NoGaps(chat, base, n, accepted) && row.id > n
    ensures NoGaps(chat + [row], base, n, accepted)
  {
  }

  lemma ScanOkGrows(chat: seq<ChatRow>, row: ChatRow, watermark: int, rest: seq<ChatRow>)
    requires ScanOk(chat, watermark, rest) && ChatOk(chat) && row.id > MaxId(chat)
    ensures ScanOk(chat + [row], watermark, rest)
  {
    if rest != [] { assert rest[|rest| - 1] in rest; }
  }

  lemma DeliverableGrows(chat: seq<ChatRow>, row: ChatRow, accepted: seq<int>, late: multiset<int>)
    requires OnlyDeliverable(chat, accepted, late)
    ensures OnlyDeliverable(chat + [row], accepted, late)
  {
    forall id | id in accepted || id in late ensures Usable(chat + [row], id) {
      assert Usable(chat, id);
      var r :| r in chat && r.id == id && r.qualifies && Deliverable(r);
      assert r in chat + [row];
    }
  }

  lemma NewRowKeeps(w: World, row: ChatRow)
    requires Inv(w) && row.id > MaxId(w.chat)
    ensures Inv(Apply(w, NewRow(row)))
  {
    hide ChatOk, NoGaps, ScanOk, OnlyDeliverable;
    ChatGrows(w.chat, row);
    DeliverableGrows(w.chat, row, w.accepted, w.late);
    var saved := w.disk.state;
    if saved.Some? && saved.value.Whole? && saved.value.watermark > 0 {
      NoGapsGrows(w.chat, row, w.base, saved.value.watermark, w.accepted);
    }
    if !w.process.Down? { NoGapsGrows(w.chat, row, w.base, w.watermark, w.accepted); }
    if w.process.Scanning? || w.process.Writing? || w.process.Renaming? {
      ScanOkGrows(w.chat, row, w.watermark, w.process.rest);
    }
  }

  lemma PostScanOk(chat: seq<ChatRow>, watermark: int, rest: seq<ChatRow>)
    requires ScanOk(chat, watermark, rest) && rest != []
    ensures ScanOk(chat, rest[0].id, rest[1..])
  {
    var tail := rest[1..];
    assert forall r :: r in rest <==> r == rest[0] || r in tail;
    forall r | r in tail ensures r.id > rest[0].id {
      var j :| 0 <= j < |tail| && tail[j] == r;
      assert rest[j + 1] == r;
    }
    if tail != [] {
      assert tail[|tail| - 1] == rest[|rest| - 1];
      assert rest[0] in rest;
      forall r | r in chat && Owed(r, rest[0].id, tail[|tail| - 1].id) ensures r in tail {
        assert Owed(r, watermark, rest[|rest| - 1].id);
      }
    }
  }

  lemma PostKeeps(w: World, heard: bool)
    requires Inv(w) && CanPost(w)
    ensures Inv(Apply(w, if heard then PostHeard else PostUnheard))
  {
    var row := w.process.rest[0];
    var accepted := w.accepted + [row.id];
    assert row in w.process.rest && row in w.chat;
    assert Usable(w.chat, row.id);
    assert forall id :: id in accepted <==> id == row.id || id in w.accepted;
    PostScanOk(w.chat, w.watermark, w.process.rest);
  }

  lemma DelayKeeps(w: World)
    requires Inv(w) && CanPost(w)
    ensures Inv(Apply(w, PostDelayed))
  {
    var row := w.process.rest[0];
    assert row in w.process.rest && row in w.chat;
    assert Usable(w.chat, row.id);
  }

  lemma ArrivalKeeps(w: World, id: int)
    requires Inv(w) && id in w.late
    ensures Inv(Apply(w, LateArrives(id)))
  {
    assert forall k :: k in w.accepted + [id] <==> k == id || k in w.accepted;
  }

  lemma StepKeeps(w: World, step: Step)
    requires Inv(w)
    ensures Inv(Apply(w, step))
  {
    match step {
      case NewRow(row) => if row.id > MaxId(w.chat) { NewRowKeeps(w, row); }
      case Query(readable) => SelectOk(w.chat, w.watermark);
      case PostHeard => if CanPost(w) { PostKeeps(w, true); }
      case PostUnheard => if CanPost(w) { PostKeeps(w, false); }
      case PostDelayed => if CanPost(w) { DelayKeeps(w); }
      case LateArrives(id) => if id in w.late { ArrivalKeeps(w, id); }
      case _ =>
    }
  }

  lemma {:induction false} RunKeeps(w: World, steps: seq<Step>)
    requires Inv(w)
    ensures Inv(Run(w, steps))
    decreases |steps|
  {
    if steps != [] {
      StepKeeps(w, steps[0]);
      RunKeeps(Apply(w, steps[0]), steps[1..]);
    }
  }

  /** What each fault leaves: an unreadable table stops a first boot or a scan before it
      begins; a refused, unheard or timed-out post ends the scan with the watermark where it
      was; a failed save is forgotten in a scan and fatal in a first boot; a crash loses the
      memory and may tear the temporary file alone. */
  lemma FaultsMean(w: World, torn: bool)
    ensures w.process.Down? && Loaded(w.disk) == Some(0) ==> Apply(w, Boot(false)) == w
    ensures Apply(w, Query(false)) == w
    ensures w.process.Scanning? && w.process.rest != [] ==> Apply(w, PostRefused) == w.(process := Ready)
    ensures CanPost(w) ==>
              && Apply(w, PostUnheard) == w.(process := Ready, accepted := w.accepted + [w.process.rest[0].id])
              && Apply(w, PostDelayed) == w.(process := Ready, late := w.late + multiset{w.process.rest[0].id})
    ensures w.process.Writing? ==>
              var v := Apply(w, WriteFails(torn));
              && v.process == (if w.process.boot then Down else Scanning(w.process.rest))
              && v == w.(process := v.process, disk := Disk(w.disk.state, if torn then Some(Torn) else w.disk.tmp))
    ensures w.process.Renaming? ==>
              && Apply(w, RenameFails) == w.(process := if w.process.boot then Down else Scanning(w.process.rest))
              && Apply(w, RenameOk) == w.(process := if w.process.boot then Ready else Scanning(w.process.rest),
                                          disk := Disk(w.disk.tmp, None))
    ensures Apply(w, Crash(torn)) ==
            w.(process := Down, disk := Disk(w.disk.state, if torn && w.process.Writing? then Some(Torn) else w.disk.tmp))
  {
  }

  // ----------------------------------------------------------------- theorems

  /** A stopped bridge over an existing chat.db and state file. */
  function Start(chat: seq<ChatRow>, saved: Option<int>): World {
    var n := if saved.Some? then saved.value else 0;
    World(chat, Disk(if saved.Some? then Some(Whole(n)) else None, None), Down, 0, [], multiset{}, n)
  }

  predicate SavedPositive(d: Disk) {
    Loaded(d).Some? && Loaded(d).value > 0
  }

  /** Whatever was accepted, so was every owed row before it; and so it will be for what is
      on the wire. */
  ghost predicate Closed(w: World) {
    && (forall id :: id in w.accepted ==> NoGaps(w.chat, w.base, id, w.accepted))
    && (forall id :: id in w.late ==> NoGaps(w.chat, w.base, id, w.accepted + [id]))
  }

  ghost predicate Sound(w: World) {
    && Inv(w) && SavedPositive(w.disk) && Closed(w)
    && (w.process.Writing? || w.process.Renaming? ==> !w.process.boot)
  }

  /** What no step takes back. */
  ghost predicate Extends(w: World, v: World) {
    && v.base == w.base && w.chat <= v.chat && w.accepted <= v.accepted
    && SavedPositive(w.disk) && SavedPositive(v.disk) && Loaded(w.disk).value <= Loaded(v.disk).value
  }

  lemma PostNoGaps(chat: seq<ChatRow>, base: int, watermark: int, rest: seq<ChatRow>, accepted: seq<int>)
    requires ScanOk(chat, watermark, rest) && rest != [] && NoGaps(chat, base, watermark, accepted)
    ensures NoGaps(chat, base, rest[0].id, accepted + [rest[0].id])
  {
    forall r | r in chat && Owed(r, base, rest[0].id) ensures r.id in accepted + [rest[0].id] {
      if r.id > watermark {
        assert rest[0].id <= rest[|rest| - 1].id;
        assert Owed(r, watermark, rest[|rest| - 1].id);
      } else {
        assert Owed(r, base, watermark);
      }
    }
  }

  lemma ClosedAfterPost(w: World)
    requires Sound(w) && CanPost(w)
    ensures Closed(Apply(w, PostHeard)) && Closed(Apply(w, PostUnheard)) && Closed(Apply(w, PostDelayed))
  {
    hide ChatOk, ScanOk, DiskOk, OnlyDeliverable;
    PostNoGaps(w.chat, w.base, w.watermark, w.process.rest, w.accepted);
  }

  lemma ClosedAfterNewRow(w: World, row: ChatRow)
    requires Sound(w) && row.id > MaxId(w.chat)
    ensures Closed(Apply(w, NewRow(row)))
  {
    hide ChatOk, ScanOk, DiskOk, Running;
    forall id | id in w.accepted || id in w.late ensures id < row.id {
      assert Usable(w.chat, id);
      IdWithinChat(w.chat, id);
    }
    forall id | id in w.accepted ensures NoGaps(w.chat + [row], w.base, id, w.accepted) {
      NoGapsGrows(w.chat, row, w.base, id, w.accepted);
    }
    forall id | id in w.late ensures NoGaps(w.chat + [row], w.base, id, w.accepted + [id]) {
      NoGapsGrows(w.chat, row, w.base, id, w.accepted + [id]);
    }
  }

  lemma ClosedKept(w: World, step: Step)
    requires Sound(w)
    ensures Closed(Apply(w, step))
  {
    hide ChatOk, ScanOk, OnlyDeliverable, Select;
    if (step.PostHeard? || step.PostUnheard? || step.PostDelayed?) && CanPost(w) {
      ClosedAfterPost(w);
    } else if step.NewRow? && step.row.id > MaxId(w.chat) {
      ClosedAfterNewRow(w, step.row);
    }
  }

  lemma IdWithinChat(chat: seq<ChatRow>, id: int)
    requires ChatOk(chat) && Usable(chat, id)
    ensures id <= MaxId(chat)
  {
  }

  lemma StepExtends(w: World, step: Step)
    requires Sound(w)
    ensures Extends(w, Apply(w, step))
    ensures var v := Apply(w, step); v.process.Writing? || v.process.Renaming? ==> !v.process.boot
  {
    hide ChatOk, ScanOk, NoGaps, OnlyDeliverable, Closed, Select, MaxId;
  }

  lemma SoundStep(w: World, step: Step)
    requires Sound(w)
    ensures Sound(Apply(w, step)) && Extends(w, Apply(w, step))
  {
    hide Apply, Inv, Closed;
    StepKeeps(w, step);
    ClosedKept(w, step);
    StepExtends(w, step);
  }

  lemma {:induction false} SoundRun(w: World, steps: seq<Step>)
    requires Sound(w)
    ensures Sound(Run(w, steps)) && Extends(w, Run(w, steps))
    decreases |steps|
  {
    hide Sound, Apply;
    assert SavedPositive(w.disk) by { SoundIsPositive(w); }
    if steps != [] {
      SoundStep(w, steps[0]);
      SoundRun(Apply(w, steps[0]), steps[1..]);
    }
  }

  lemma SoundIsPositive(w: World)
    requires Sound(w)
    ensures SavedPositive(w.disk)
  {
  }

  lemma StartSound(chat: seq<ChatRow>, n: int)
    requires ChatOk(chat) && 0 < n <= MaxId(chat)
    ensures Sound(Start(chat, Some(n)))
  {
  }

  /** Every state a bridge with a positive saved watermark can get into. */
  lemma Reached(chat: seq<ChatRow>, n: int, steps: seq<Step>)
    requires ChatOk(chat) && 0 < n <= MaxId(chat)
    ensures var w := Run(Start(chat, Some(n)), steps);
            Sound(w) && Extends(Start(chat, Some(n)), w) && w.base == n && n <= Loaded(w.disk).value
  {
    StartSound(chat, n);
    SoundRun(Start(chat, Some(n)), steps);
  }

  /** At least once: over any run from a positive saved watermark n, the durable
      watermark never passes the one in memory, and every qualifying row above n and
      up to either of them has been accepted. */
  lemma NothingSkipped(chat: seq<ChatRow>, n: int, steps: seq<Step>)
    requires ChatOk(chat) && 0 < n <= MaxId(chat)
    ensures var w := Run(Start(chat, Some(n)), steps);
            var saved := Loaded(w.disk);
            && saved.Some? && n <= saved.value
            && NoGaps(w.chat, n, saved.value, w.accepted)
            && (!w.process.Down? ==> saved.value <= w.watermark && NoGaps(w.chat, n, w.watermark, w.accepted))
  {
    Reached(chat, n, steps);
  }

  /** The state file is never torn, whatever crashes and failed writes occur, so the
      watermark can always be loaded. */
  lemma {:induction false} StateFileNeverTorn(w: World, steps: seq<Step>)
    requires Inv(w)
    ensures Loaded(Run(w, steps).disk).Some?
  {
    var r := Run(w, steps);
    assert DiskOk(r) by { RunKeeps(w, steps); }
  }

  /** A message that came after the start, was never accepted and lies below the watermark
      for good. */
  ghost predicate Lost(w: World, chat: seq<ChatRow>, r: ChatRow) {
    r in w.chat && r.qualifies && MaxId(chat) < r.id <= Mark(w) && r.id !in w.accepted
  }

  ghost predicate Loses(chat: seq<ChatRow>, saved: Option<int>, steps: seq<Step>) {
    exists r :: Lost(Run(Start(chat, saved), steps), chat, r)
  }

  /** No run ever loses a new message exactly when the saved watermark is positive and not
      beyond the table. */
  lemma LossFreeExactlyWhen(chat: seq<ChatRow>, saved: Option<int>)
    requires ChatOk(chat)
    ensures (forall steps :: !Loses(chat, saved, steps)) <==> saved.Some? && 0 < saved.value <= MaxId(chat)
  {
    hide Run;
    if saved.Some? && 0 < saved.value <= MaxId(chat) {
      forall steps ensures !Loses(chat, saved, steps) {
        var w := Run(Start(chat, saved), steps);
        NothingSkipped(chat, saved.value, steps);
        assert forall r :: r in w.chat && r.qualifies && MaxId(chat) < r.id <= Mark(w) ==> Owed(r, saved.value, Mark(w));
      }
    } else {
      NextRowIsLost(chat, saved);
    }
  }

  lemma NextRowIsLost(chat: seq<ChatRow>, saved: Option<int>)
    requires ChatOk(chat) && !(saved.Some? && 0 < saved.value <= MaxId(chat))
    ensures exists steps :: Loses(chat, saved, steps)
  {
    var row := NEW_ROW.(id := MaxId(chat) + 1);
    var s0 := Start(chat, saved);
    var s1 := Apply(s0, NewRow(row));
    RunStep(s0, NewRow(row), [Boot(true)]);
    RunStep(s1, Boot(true), []);
    assert s1.chat[|chat|] == row;
    assert Lost(Apply(s1, Boot(true)), chat, row);
    assert Loses(chat, saved, [NewRow(row)] + [Boot(true)]);
  }

  /** A message can be lost: a first start on an empty chat saves watermark 0, and a
      restart before the first message is forwarded takes that message for history. */
  lemma RebootstrapLosesRow(row: ChatRow)
    requires row.id > 0 && row.qualifies && Deliverable(row)
    ensures var w := Run(Start([], None), [Boot(true), WriteOk, RenameOk, NewRow(row), Crash(false), Boot(true), WriteOk, RenameOk]);
            w.process.Ready? && w.chat == [row] && w.watermark == row.id && Loaded(w.disk) == Some(row.id) && w.accepted == []
  {
    var s0 := Start([], None);
    var s1 := Apply(s0, Boot(true));
    var s2 := Apply(s1, WriteOk);
    var s3 := Apply(s2, RenameOk);
    var s4 := Apply(s3, NewRow(row));
    var s5 := Apply(s4, Crash(false));
    var s6 := Apply(s5, Boot(true));
    var s7 := Apply(s6, WriteOk);
    var s8 := Apply(s7, RenameOk);
    assert s8.process.Ready? && s8.chat == [row];
    RunSplit(s0, [Boot(true), WriteOk, RenameOk, NewRow(row)], [Crash(false), Boot(true), WriteOk, RenameOk]);
    RunFour(s0, Boot(true), WriteOk, RenameOk, NewRow(row));
    RunFour(s4, Crash(false), Boot(true), WriteOk, RenameOk);
    assert [Boot(true), WriteOk, RenameOk, NewRow(row)] + [Crash(false), Boot(true), WriteOk, RenameOk]
        == [Boot(true), WriteOk, RenameOk, NewRow(row), Crash(false), Boot(true), WriteOk, RenameOk];
  }

  lemma RunFour(w: World, a: Step, b: Step, c: Step, d: Step)
    ensures Run(w, [a, b, c, d]) == Apply(Apply(Apply(Apply(w, a), b), c), d)
  {
    assert [a, b, c, d][1..] == [b, c, d] && [b, c, d][1..] == [c, d] && [c, d][1..] == [d] && [d][1..] == [];
    assert Run(Apply(w, a), [b, c, d]) == Run(Apply(Apply(w, a), b), [c, d]);
    assert Run(Apply(Apply(Apply(w, a), b), c), [d]) == Apply(Apply(Apply(Apply(w, a), b), c), d);
  }

  lemma {:induction false} RunSplit(w: World, a: seq<Step>, b: seq<Step>)
    ensures Run(w, a + b) == Run(Run(w, a), b)
    decreases |a|
  {
    if a == [] {
      assert a + b == b;
    } else {
      assert (a + b)[1..] == a[1..] + b;
      RunSplit(Apply(w, a[0]), a[1..], b);
    }
  }

  /** Ids are unique, so a row whose id was accepted is one the server takes. */
  lemma UsableRow(chat: seq<ChatRow>, r: ChatRow)
    requires Ascending(chat) && r in chat
    ensures Usable(chat, r.id) ==> r.qualifies && Deliverable(r)
  {
    forall u | u in chat && u.id == r.id ensures u == r {
      var i :| 0 <= i < |chat| && chat[i] == r;
      var j :| 0 <= j < |chat| && chat[j] == u;
    }
  }

  // ------------------------------------------------- what the watcher gets past

  predicate Idle(w: World) {
    w.process.Down? || w.process.Ready?
  }

  /** Where forwarding stands: the watermark in memory, or the saved one while down. */
  function Mark(w: World): int {
    if !w.process.Down? then w.watermark
    else if Loaded(w.disk).Some? then Loaded(w.disk).value else 0
  }

  lemma UndeliverableBlocks(w: World, r: ChatRow)
    requires Sound(w) && r in w.chat && r.qualifies && w.base < r.id
    ensures !Deliverable(r) ==> Mark(w) < r.id
  {
    UsableRow(w.chat, r);
    assert Mark(w) >= r.id ==> Owed(r, w.base, Mark(w));
  }

  /** A qualifying row the server refuses stops the watermark below it for good: neither
      the running watcher nor any restart ever gets past it. */
  lemma BrokenRowWedges(chat: seq<ChatRow>, n: int, steps: seq<Step>, r: ChatRow)
    requires ChatOk(chat) && 0 < n <= MaxId(chat)
    requires r in Run(Start(chat, Some(n)), steps).chat && r.qualifies && r.id > n && !Deliverable(r)
    ensures var w := Run(Start(chat, Some(n)), steps);
            && (!w.process.Down? ==> w.watermark < r.id)
            && Loaded(w.disk).Some? && Loaded(w.disk).value < r.id
  {
    Reached(chat, n, steps);
    UndeliverableBlocks(Run(Start(chat, Some(n)), steps), r);
  }

  /** A post is accepted exactly when it fits and carries a handle and some text or media. */
  lemma AcceptedExactlyWhen(w: World)
    requires w.process.Scanning? && w.process.rest != []
    ensures var r := w.process.rest[0]; var v := Apply(w, PostHeard);
            && (r.fits && r.handle.Some? && r.handle.value != "" && (r.text != "" || r.media > 0) ==>
                  v.accepted == w.accepted + [r.id] && v.watermark == r.id)
            && (!r.fits || r.handle == None || r.handle == Some("") || (r.text == "" && r.media == 0) ==> v == w)
  {
  }

  /** A message with no text, whose only attachment the bridge cannot build. */
  const BARE_ROW := ChatRow(2, true, Some("+15550100"), "", 0, true)

  /** Nothing ever gets past it, although its handle is sound. */
  lemma BareRowWedges(steps: seq<Step>)
    ensures Mark(Run(Start([OLD_ROW, BARE_ROW], Some(1)), steps)) < 2
  {
    hide Run;
    Reached([OLD_ROW, BARE_ROW], 1, steps);
    var w := Run(Start([OLD_ROW, BARE_ROW], Some(1)), steps);
    assert w.chat[1] == BARE_ROW;
    UndeliverableBlocks(w, BARE_ROW);
  }

  /** What was accepted since came off the wire. */
  ghost predicate OnlyOffTheWire(from: World, w: World) {
    from.accepted <= w.accepted && multiset(w.accepted[|from.accepted|..]) + w.late == from.late
  }

  /** A NULL handle at q, no scan in progress, and nothing posted or saved since. */
  ghost predicate Stuck(w: World, from: World, q: ChatRow) {
    && Idle(w) && q in w.chat && q.qualifies && q.handle.None?
    && OnlyOffTheWire(from, w) && w.disk.state == from.disk.state
    && SavedPositive(w.disk) && Loaded(w.disk).value <= Mark(w) <= Mark(from) < q.id
  }

  lemma StuckStep(w: World, from: World, q: ChatRow, step: Step)
    requires Stuck(w, from, q)
    ensures Stuck(Apply(w, step), from, q)
  {
    if step.Query? { SelectMembers(w.chat, w.watermark, q); }
    if step.LateArrives? && step.id in w.late {
      assert (w.accepted + [step.id])[|from.accepted|..] == w.accepted[|from.accepted|..] + [step.id];
    }
  }

  lemma {:induction false} StuckRun(w: World, from: World, q: ChatRow, steps: seq<Step>)
    requires Stuck(w, from, q)
    ensures Stuck(Run(w, steps), from, q)
    decreases |steps|
  {
    hide Stuck, Apply;
    if steps != [] {
      StuckStep(w, from, q, steps[0]);
      StuckRun(Apply(w, steps[0]), from, q, steps[1..]);
    }
  }

  lemma StuckFirst(w: World, q: ChatRow)
    requires Sound(w) && Idle(w) && q in w.chat && q.qualifies && q.handle.None? && q.id > Mark(w)
    ensures Stuck(w, w, q)
  {
    assert w.accepted[|w.accepted|..] == [];
  }

  /** With a NULL handle above the watermark and no scan in progress the watcher is frozen:
      in every continuation nothing is posted, nothing is saved and the watermark never
      moves on, so the sound rows around the broken one are held back too. The server takes
      at most what was already on the wire. */
  lemma NullHandleFreezes(chat: seq<ChatRow>, n: int, past: seq<Step>, q: ChatRow, steps: seq<Step>)
    requires ChatOk(chat) && 0 < n <= MaxId(chat)
    requires var w := Run(Start(chat, Some(n)), past);
             Idle(w) && q in w.chat && q.qualifies && q.handle.None? && q.id > Mark(w)
    ensures var w := Run(Start(chat, Some(n)), past); var v := Run(w, steps);
            Idle(v) && OnlyOffTheWire(w, v) && v.disk.state == w.disk.state && Mark(v) <= Mark(w)
  {
    Reached(chat, n, past);
    var w := Run(Start(chat, Some(n)), past);
    StuckFirst(w, q);
    StuckRun(w, w, q, steps);
  }

  ghost predicate Passes(w: World, steps: seq<Step>, id: int) {
    id <= Mark(Run(w, steps))
  }

  /** No qualifying row above n has a NULL handle. */
  ghost predicate NoNullAbove(chat: seq<ChatRow>, n: int) {
    forall q :: q in chat && q.qualifies && n < q.id ==> q.handle.Some?
  }

  /** The server takes every row owed from above n up to m. */
  ghost predicate DeliverableUpTo(chat: seq<ChatRow>, n: int, m: int) {
    forall q :: q in chat && Owed(q, n, m) ==> Deliverable(q)
  }

  /** Nothing goes wrong, so far as the server takes the rows. */
  function Smooth(): nat -> PostFate {
    _ => Heard(Saved)
  }

  /** A smooth pass hands over at least the rows up to r when it can deliver them all. */
  lemma {:induction false} PassForwardsUpTo(w: World, r: ChatRow, k: nat)
    requires w.process.Scanning? && r in w.process.rest && Ascending(w.process.rest)
    requires forall q :: q in w.process.rest && q.id <= r.id ==> Deliverable(q)
    ensures var v := Run(w, ScanSteps(w.process.rest, Smooth(), k));
            Mark(v) >= r.id && w.accepted <= v.accepted && r.id in v.accepted[|w.accepted|..]
    decreases |w.process.rest|
  {
    hide Run, ScanSteps;
    var rows := w.process.rest;
    assert rows[0].id <= r.id && rows[0] in rows;
    ForwardFirst(w, Smooth(), k);
    var next := SaveEffect(Apply(w, PostHeard), Saved);
    var v := Run(next, ScanSteps(rows[1..], Smooth(), k + 1));
    if rows[0] == r {
      PassKeeps(next, k + 1);
    } else {
      assert r in rows[1..];
      PassForwardsUpTo(next, r, k + 1);
    }
    assert v.accepted[|w.accepted|..] == [rows[0].id] + v.accepted[|next.accepted|..];
  }

  /** A smooth pass takes nothing back. */
  lemma {:induction false} PassKeeps(w: World, k: nat)
    requires w.process.Scanning? && Ascending(w.process.rest) && forall q :: q in w.process.rest ==> w.watermark < q.id
    ensures var v := Run(w, ScanSteps(w.process.rest, Smooth(), k));
            Mark(v) >= w.watermark && w.accepted <= v.accepted
    decreases |w.process.rest|
  {
    hide Run, ScanSteps;
    var rows := w.process.rest;
    if rows == [] {
      ScanRunsOut(w, Smooth(), k);
    } else {
      assert rows[0] in rows;
      ForwardFirst(w, Smooth(), k);
      if Deliverable(rows[0]) { PassKeeps(SaveEffect(Apply(w, PostHeard), Saved), k + 1); }
    }
  }

  /** Boot if need be, query, and one smooth pass. */
  function OnePass(w: World): seq<Step> {
    [Boot(true), Query(true)] + ScanSteps(Select(w.chat, Mark(w)), Smooth(), 0)
  }

  lemma OnePassScans(w: World)
    requires Sound(w) && Idle(w) && NoNullAbove(w.chat, Mark(w))
    ensures Run(w, OnePass(w)) ==
            Run(w.(process := Scanning(Select(w.chat, Mark(w))), watermark := Mark(w)), ScanSteps(Select(w.chat, Mark(w)), Smooth(), 0))
  {
    hide Run, ScanSteps, Select, Inv, Closed;
    var rows := Select(w.chat, Mark(w));
    forall k | 0 <= k < |rows| ensures rows[k].handle.Some? { SelectMembers(w.chat, Mark(w), rows[k]); }
    var rest := ScanSteps(rows, Smooth(), 0);
    assert OnePass(w) == [Boot(true)] + ([Query(true)] + rest);
    RunStep(w, Boot(true), [Query(true)] + rest);
    RunStep(Apply(w, Boot(true)), Query(true), rest);
  }

  lemma OnePassReaches(w: World, r: ChatRow)
    requires Sound(w) && Idle(w) && r in w.chat && r.qualifies && Mark(w) < r.id
    requires NoNullAbove(w.chat, Mark(w)) && DeliverableUpTo(w.chat, Mark(w), r.id)
    ensures Passes(w, OnePass(w), r.id) && AcceptsAgain(w, OnePass(w), r.id)
  {
    hide Run;
    var rows := Select(w.chat, Mark(w));
    OnePassScans(w);
    SelectAscends(w.chat, Mark(w));
    forall q ensures q in rows <==> q in w.chat && q.qualifies && q.id > Mark(w) { SelectMembers(w.chat, Mark(w), q); }
    PassForwardsUpTo(w.(process := Scanning(rows), watermark := Mark(w)), r, 0);
  }

  /** Some continuation gets past a row exactly when the server takes every owed row up to
      it and no qualifying row above the watermark has a NULL handle. */
  lemma PassableExactlyWhen(chat: seq<ChatRow>, n: int, past: seq<Step>, r: ChatRow)
    requires ChatOk(chat) && 0 < n <= MaxId(chat)
    requires var w := Run(Start(chat, Some(n)), past); Idle(w) && r in w.chat && r.qualifies && Mark(w) < r.id
    ensures var w := Run(Start(chat, Some(n)), past);
            (exists steps :: Passes(w, steps, r.id)) <==> NoNullAbove(w.chat, Mark(w)) && DeliverableUpTo(w.chat, Mark(w), r.id)
  {
    hide Run, Sound, Deliverable, Passes, Extends;
    Reached(chat, n, past);
    var w := Run(Start(chat, Some(n)), past);
    forall steps, q | Passes(w, steps, r.id) && q in w.chat && q.qualifies && Mark(w) < q.id
      ensures q.handle.Some? && (q.id <= r.id ==> Deliverable(q))
    {
      Held(w, steps, r.id, q);
    }
    if NoNullAbove(w.chat, Mark(w)) && DeliverableUpTo(w.chat, Mark(w), r.id) { OnePassReaches(w, r); }
  }

  lemma Held(w: World, steps: seq<Step>, id: int, q: ChatRow)
    requires Sound(w) && Idle(w) && q in w.chat && q.qualifies && Mark(w) < q.id && Mark(w) < id
    ensures q.handle.None? ==> !Passes(w, steps, id)
    ensures !Deliverable(q) && q.id <= id ==> !Passes(w, steps, id)
  {
    SoundRun(w, steps);
    if q.handle.None? {
      StuckFirst(w, q);
      StuckRun(w, w, q, steps);
    }
    UndeliverableBlocks(Run(w, steps), q);
  }

  // ------------------------------------------------------------ at least, at most

  ghost predicate AcceptsAgain(w: World, steps: seq<Step>, id: int) {
    |w.accepted| <= |Run(w, steps).accepted| && id in Run(w, steps).accepted[|w.accepted|..]
  }

  /** Whatever the state: nothing accepted from here on is saved already, unless it is on
      the wire. */
  lemma {:induction false} AcceptedAreUnsaved(w: World, steps: seq<Step>, id: int)
    requires Sound(w) && AcceptsAgain(w, steps, id)
    ensures Loaded(w.disk).Some? && (Loaded(w.disk).value < id || id in w.late)
    decreases |steps|
  {
    hide Sound, Apply;
    if steps != [] {
      var v := Apply(w, steps[0]);
      SoundStep(w, steps[0]);
      SoundRun(v, steps[1..]);
      StepAcceptsUnsaved(w, steps[0], id);
      if id !in v.accepted[|w.accepted|..] {
        assert Run(w, steps).accepted[|w.accepted|..] == v.accepted[|w.accepted|..] + Run(v, steps[1..]).accepted[|v.accepted|..];
        AcceptedAreUnsaved(v, steps[1..], id);
      }
    }
  }

  lemma StepAcceptsUnsaved(w: World, step: Step, id: int)
    requires Sound(w) && w.accepted <= Apply(w, step).accepted
    requires Extends(w, Apply(w, step))
    ensures Loaded(w.disk).Some?
    ensures id in Apply(w, step).accepted[|w.accepted|..] || id in Apply(w, step).late ==> Loaded(w.disk).value < id || id in w.late
  {
    assert CanPost(w) ==> w.process.rest[0] in w.process.rest;
  }

  /** With no scan in progress, a row accepted before can be accepted again by some
      continuation exactly when a request for it is still on the wire, or it is above the
      saved watermark and no qualifying row above that has a NULL handle. */
  lemma RepeatableExactlyWhen(chat: seq<ChatRow>, n: int, past: seq<Step>, id: int)
    requires ChatOk(chat) && 0 < n <= MaxId(chat)
    requires var w := Run(Start(chat, Some(n)), past); Idle(w) && id in w.accepted
    ensures var w := Run(Start(chat, Some(n)), past);
            (exists steps :: AcceptsAgain(w, steps, id)) <==>
            || id in w.late
            || (Loaded(w.disk).Some? && Loaded(w.disk).value < id && NoNullAbove(w.chat, Loaded(w.disk).value))
  {
    Reached(chat, n, past);
    var w := Run(Start(chat, Some(n)), past);
    var saved := Loaded(w.disk).value;
    forall steps | AcceptsAgain(w, steps, id) && id !in w.late ensures saved < id && NoNullAbove(w.chat, saved) {
      AcceptedAreUnsaved(w, steps, id);
      forall q | q in w.chat && q.qualifies && saved < q.id ensures q.handle.Some? { NullForbidsMore(w, steps, id, q); }
    }
    if id in w.late {
      ArrivalRepeats(w, id);
    } else if saved < id && NoNullAbove(w.chat, saved) {
      CrashRepeats(w, id);
    }
  }

  lemma ArrivalRepeats(w: World, id: int)
    requires id in w.late
    ensures AcceptsAgain(w, [LateArrives(id)], id)
  {
    RunStep(w, LateArrives(id), []);
  }

  lemma NullForbidsMore(w: World, steps: seq<Step>, id: int, q: ChatRow)
    requires Sound(w) && Idle(w) && q in w.chat && q.qualifies && Loaded(w.disk).value < q.id
    ensures q.handle.None? && id !in w.late ==> !AcceptsAgain(w, steps, id)
  {
    UndeliverableBlocks(w, q);
    if q.handle.None? {
      StuckFirst(w, q);
      StuckRun(w, w, q, steps);
      var v := Run(w, steps);
      assert id in v.accepted[|w.accepted|..] ==> id in multiset(v.accepted[|w.accepted|..]);
    }
  }

  /** What was skipped past on the way to an accepted row can be delivered. */
  lemma AcceptedPrefixDeliverable(w: World, id: int, n: int)
    requires Sound(w) && id in w.accepted && w.base <= n
    ensures DeliverableUpTo(w.chat, n, id)
  {
    forall q | q in w.chat && Owed(q, n, id) ensures Deliverable(q) {
      assert Owed(q, w.base, id);
      assert Usable(w.chat, q.id);
      UsableRow(w.chat, q);
    }
  }

  lemma CrashLeaves(w: World, id: int)
    requires Sound(w) && id in w.accepted
    ensures var down := w.(process := Down);
            && Apply(w, Crash(false)) == down && Sound(down)
            && Mark(down) == Loaded(w.disk).value && DeliverableUpTo(w.chat, Mark(down), id)
  {
    var down := w.(process := Down);
    SoundStep(w, Crash(false));
    assert down.base <= Mark(down);
    hide Sound;
    AcceptedPrefixDeliverable(w, id, Mark(down));
  }

  /** A crash, a boot and one smooth pass. */
  lemma CrashRepeats(w: World, id: int)
    requires Sound(w) && id in w.accepted && Loaded(w.disk).value < id && NoNullAbove(w.chat, Loaded(w.disk).value)
    ensures exists steps :: AcceptsAgain(w, steps, id)
  {
    var down := w.(process := Down);
    CrashLeaves(w, id);
    assert Usable(w.chat, id);
    var r :| r in w.chat && r.id == id && r.qualifies && Deliverable(r);
    hide Sound, Run, NoNullAbove, DeliverableUpTo, Apply;
    OnePassReaches(down, r);
    RunStep(w, Crash(false), OnePass(down));
    assert AcceptsAgain(w, [Crash(false)] + OnePass(down), id);
  }

  // ---------------------------------------------------------------- exactly once

  /** No POST is accepted without the watcher hearing of it, and the process dies only with
      its watermark on disk. Any file operation may fail. */
  predicate Careful(w: World, step: Step) {
    && !step.PostUnheard? && !step.PostDelayed?
    && (step.Crash? && !w.process.Down? ==> Loaded(w.disk) == Some(w.watermark))
  }

  predicate CarefulRun(w: World, steps: seq<Step>)
    decreases |steps|
  {
    steps == [] || (Careful(w, steps[0]) && CarefulRun(Apply(w, steps[0]), steps[1..]))
  }

  ghost predicate Once(w: World) {
    && (forall i, j :: 0 <= i < j < |w.accepted| ==> w.accepted[i] < w.accepted[j])
    && (forall id :: id in w.accepted ==> id <= Mark(w))
    && w.late == multiset{}
  }

  lemma CarefulStepKeepsOnce(w: World, step: Step)
    requires Sound(w) && Once(w) && Careful(w, step)
    ensures Once(Apply(w, step))
  {
    hide NoGaps, OnlyDeliverable, Closed, ChatOk, Select, MaxId, Ascending;
    if step.PostHeard? && CanPost(w) {
      var id := w.process.rest[0].id;
      assert w.process.rest[0] in w.process.rest;
      forall i | 0 <= i < |w.accepted| ensures w.accepted[i] < id {
        assert w.accepted[i] in w.accepted;
      }
    }
  }

  lemma {:induction false} CarefulRunKeepsOnce(w: World, steps: seq<Step>)
    requires Sound(w) && Once(w) && CarefulRun(w, steps)
    ensures Once(Run(w, steps))
    decreases |steps|
  {
    hide Sound, Once, Apply, Careful;
    if steps != [] {
      CarefulStepKeepsOnce(w, steps[0]);
      SoundStep(w, steps[0]);
      CarefulRunKeepsOnce(Apply(w, steps[0]), steps[1..]);
    }
  }

  /** Repeats come only from a lost response, a delayed request or a crash with the watermark
      unsaved: without them no row is accepted twice, whatever saves fail and in any number of restarts. */
  lemma ExactlyOnceWhenCareful(chat: seq<ChatRow>, n: int, steps: seq<Step>, i: nat, j: nat)
    requires ChatOk(chat) && 0 < n <= MaxId(chat) && CarefulRun(Start(chat, Some(n)), steps)
    requires i < j < |Run(Start(chat, Some(n)), steps).accepted|
    ensures Run(Start(chat, Some(n)), steps).accepted[i] < Run(Start(chat, Some(n)), steps).accepted[j]
  {
    StartSound(chat, n);
    CarefulRunKeepsOnce(Start(chat, Some(n)), steps);
  }

  const OLD_ROW := ChatRow(1, true, Some("+15550100"), "earlier", 0, true)
  const NEW_ROW := ChatRow(2, true, Some("+15550100"), "hello", 0, true)

  lemma NewRowSelected()
    ensures Select([OLD_ROW, NEW_ROW], 1) == [NEW_ROW]
  {
    assert [OLD_ROW, NEW_ROW][1..] == [NEW_ROW] && [NEW_ROW][1..] == [];
    assert Select([NEW_ROW], 1) == [NEW_ROW] + Select([], 1);
  }

  /** A lost response repeats a message. */
  lemma LostResponseRepeats()
    ensures Run(Start([OLD_ROW, NEW_ROW], Some(1)),
                [Boot(true), Query(true)] + [PostUnheard, Query(true)] + [PostHeard, WriteOk]).accepted == [2, 2]
  {
    NewRowSelected();
    hide Select;
    var w := Start([OLD_ROW, NEW_ROW], Some(1));
    RunTwos(w, Boot(true), Query(true), PostUnheard, Query(true), PostHeard, WriteOk);
  }

  lemma TimedOutPass()
    ensures var v := Run(Start([OLD_ROW, NEW_ROW], Some(1)),
                         [Boot(true), Query(true)] + [PostDelayed, Query(true)] + [PostHeard, WriteOk]);
            v.process == Renaming([], false) && v.accepted == [2] && v.late == multiset{2} && v.disk.tmp == Some(Whole(2))
  {
    NewRowSelected();
    hide Select;
    RunTwos(Start([OLD_ROW, NEW_ROW], Some(1)), Boot(true), Query(true), PostDelayed, Query(true), PostHeard, WriteOk);
  }

  /** So does a request that reaches the server late, even below the saved watermark. */
  lemma DelayedRequestRepeats()
    ensures var v := Run(Run(Start([OLD_ROW, NEW_ROW], Some(1)),
                             [Boot(true), Query(true)] + [PostDelayed, Query(true)] + [PostHeard, WriteOk]),
                         [RenameOk, ScanEnds, LateArrives(2), Crash(false)]);
            v.accepted == [2, 2] && v.disk.state == Some(Whole(2))
  {
    hide Run;
    TimedOutPass();
    RunFour(Run(Start([OLD_ROW, NEW_ROW], Some(1)), [Boot(true), Query(true)] + [PostDelayed, Query(true)] + [PostHeard, WriteOk]),
            RenameOk, ScanEnds, LateArrives(2), Crash(false));
  }

  lemma UnsavedPass(torn: bool)
    ensures var v := Run(Start([OLD_ROW, NEW_ROW], Some(1)),
                         [Boot(true), Query(true)] + [PostHeard, WriteFails(torn)] + [ScanEnds, Crash(false)]);
            v.process.Down? && v.chat == [OLD_ROW, NEW_ROW] && v.disk.state == Some(Whole(1)) && v.accepted == [2]
  {
    NewRowSelected();
    hide Select;
    RunTwos(Start([OLD_ROW, NEW_ROW], Some(1)), Boot(true), Query(true), PostHeard, WriteFails(torn), ScanEnds, Crash(false));
  }

  lemma PassAfresh(v: World)
    requires v.process.Down? && v.chat == [OLD_ROW, NEW_ROW] && v.disk.state == Some(Whole(1))
    ensures Run(v, [Boot(true), Query(true)] + [PostHeard, WriteOk] + [RenameOk, ScanEnds]).accepted == v.accepted + [2]
  {
    NewRowSelected();
    hide Select;
    RunTwos(v, Boot(true), Query(true), PostHeard, WriteOk, RenameOk, ScanEnds);
  }

  /** So does a failed save, once the process dies before a later one succeeds. */
  lemma FailedSaveRepeats(torn: bool)
    ensures Run(Run(Start([OLD_ROW, NEW_ROW], Some(1)),
                    [Boot(true), Query(true)] + [PostHeard, WriteFails(torn)] + [ScanEnds, Crash(false)]),
                [Boot(true), Query(true)] + [PostHeard, WriteOk] + [RenameOk, ScanEnds]).accepted == [2, 2]
  {
    hide Run;
    UnsavedPass(torn);
    PassAfresh(Run(Start([OLD_ROW, NEW_ROW], Some(1)),
                   [Boot(true), Query(true)] + [PostHeard, WriteFails(torn)] + [ScanEnds, Crash(false)]));
  }

  lemma RunTwos(w: World, a: Step, b: Step, c: Step, d: Step, e: Step, f: Step)
    ensures Run(w, [a, b] + [c, d] + [e, f]) == Apply(Apply(Apply(Apply(Apply(Apply(w, a), b), c), d), e), f)
  {
    hide Apply;
    assert [a, b] + [c, d] + [e, f] == [a, b, c, d] + [e, f];
    RunSplit(w, [a, b, c, d], [e, f]);
    RunFour(w, a, b, c, d);
    var v := Run(w, [a, b, c, d]);
    assert [e] + [f] == [e, f];
    RunStep(v, e, [f]);
    RunStep(Apply(v, e), f, []);
  }
  // ------------------------------------------------------------------ watcher

  datatype SaveFate = Saved | WriteError(torn: bool) | RenameError

  datatype PostFate = Heard(save: SaveFate) | Unheard | Delayed | Refused

  function SaveSteps(f: SaveFate): seq<Step> {
    match f
    case Saved => [WriteOk, RenameOk]
    case WriteError(torn) => [WriteFails(torn)]
    case RenameError => [WriteOk, RenameFails]
  }

  /** The steps of one pass over the selected rows, given what happens to each. A
      message the server cannot take is refused. */
  function ScanSteps(rows: seq<ChatRow>, fate: nat -> PostFate, k: nat): seq<Step>
    decreases |rows|
  {
    if rows == [] then [ScanEnds]
    else if fate(k).Refused? || !Deliverable(rows[0]) then [PostRefused]
    else if fate(k).Unheard? then [PostUnheard]
    else if fate(k).Delayed? then [PostDelayed]
    else [PostHeard] + SaveSteps(fate(k).save) + ScanSteps(rows[1..], fate, k + 1)
  }

  /** The watermark file. */
  class StateFile {
    var disk: Disk

    constructor (d: Disk)
      ensures disk == d
    {
      disk := d;
    }

    method Load() returns (n: Option<int>)
      ensures n == Loaded(disk)
    {
      match disk.state {
        case None => n := Some(0);
        case Some(Whole(m)) => n := Some(m);
        case Some(Torn) => n := None;
      }
    }

    /** Writes aside, then renames. */
    method Save(n: int, fate: SaveFate) returns (ok: bool)
      modifies this
      ensures ok <==> fate.Saved?
      ensures disk == match fate
        case Saved => Disk(Some(Whole(n)), None)
        case WriteError(torn) => old(disk).(tmp := if torn then Some(Torn) else old(disk).tmp)
        case RenameError => old(disk).(tmp := Some(Whole(n)))
    {
      if fate.WriteError? {
        if fate.torn { disk := disk.(tmp := Some(Torn)); }
        return false;
      }
      disk := disk.(tmp := Some(Whole(n)));
      if fate.RenameError? { return false; }
      disk := Disk(disk.tmp, None);
      return true;
    }
  }

  class Watcher {
    const file: StateFile
    var lastRowID: int
    ghost var accepted: seq<int>
    ghost var late: multiset<int>
    ghost var base: int

    ghost function View(chat: seq<ChatRow>, p: Process): World
      reads this, file
    {
      World(chat, file.disk, p, lastRowID, accepted, late, base)
    }

    constructor (file: StateFile)
      ensures this.file == file && accepted == [] && late == multiset{} && lastRowID == 0
    {
      this.file := file;
      lastRowID, accepted, late, base := 0, [], multiset{}, 0;
    }

    /** Seeds the watermark from the file, or from the current history when the file
        has none, and persists the latter. */
    method Bootstrap(chat: seq<ChatRow>, readable: bool, fate: SaveFate) returns (ok: bool)
      modifies this, file
      ensures View(chat, if ok then Ready else Down)
           == Run(old(View(chat, Down)),
                  [Boot(readable)] + (if Apply(old(View(chat, Down)), Boot(readable)).process.Writing? then SaveSteps(fate) else []))
    {
      ghost var was := View(chat, Down);
      ghost var booted := Apply(was, Boot(readable));
      RunStep(was, Boot(readable), if booted.process.Writing? then SaveSteps(fate) else []);
      var n := file.Load();
      if n.None? { return false; }
      if n.value > 0 {
        lastRowID := n.value;
        return true;
      }
      if !readable { return false; }
      lastRowID := MaxId(chat);
      base := lastRowID;
      RunSave(booted, fate);
      ok := file.Save(lastRowID, fate);
    }

    /** One scan: query above the watermark, then forward what came back. */
    method ScanOnce(chat: seq<ChatRow>, readable: bool, fate: nat -> PostFate)
      modifies this, file
      ensures View(chat, Ready) == ScanResult(old(View(chat, Ready)), readable, fate)
    {
      var msgs := Select(chat, lastRowID);
      if !readable || exists k :: 0 <= k < |msgs| && msgs[k].handle.None? { return; }
      Forward(chat, msgs, fate);
    }

    /** Forwards every selected row in order, advancing the watermark only after the
        server accepts and stopping at the first failure. */
    method Forward(chat: seq<ChatRow>, msgs: seq<ChatRow>, fate: nat -> PostFate)
      modifies this, file
      ensures View(chat, Ready) == Run(old(View(chat, Scanning(msgs))), ScanSteps(msgs, fate, 0))
    {
      hide Run, ScanSteps;
      ghost var done := Run(View(chat, Scanning(msgs)), ScanSteps(msgs, fate, 0));
      var k := 0;
      assert msgs[0..] == msgs;
      while k < |msgs|
        invariant 0 <= k <= |msgs|
        invariant Run(View(chat, Scanning(msgs[k..])), ScanSteps(msgs[k..], fate, k)) == done
      {
        ghost var here := View(chat, Scanning(msgs[k..]));
        assert msgs[k..][1..] == msgs[k + 1..];
        ForwardFirst(here, fate, k);
        if fate(k).Refused? || !Deliverable(msgs[k]) { return; }
        if fate(k).Delayed? {
          late := late + multiset{msgs[k].id};
          return;
        }
        accepted := accepted + [msgs[k].id];
        if fate(k).Unheard? { return; }
        lastRowID := msgs[k].id;
        var ok := file.Save(lastRowID, fate(k).save);
        assert View(chat, Scanning(msgs[k + 1..])) == SaveEffect(Apply(here, PostHeard), fate(k).save);
        k := k + 1;
      }
      ScanRunsOut(View(chat, Scanning(msgs[k..])), fate, k);
    }
  }

  /** One undisturbed scan as a run of the machine. */
  function ScanResult(w: World, readable: bool, fate: nat -> PostFate): World {
    var queried := Apply(w, Query(readable));
    if queried.process.Scanning? then Run(queried, ScanSteps(queried.process.rest, fate, 0)) else queried
  }

  lemma RunStep(w: World, step: Step, rest: seq<Step>)
    ensures Run(w, [step] + rest) == Run(Apply(w, step), rest)
    ensures rest == [] ==> Run(w, [step]) == Apply(w, step)
  {
    assert ([step] + rest)[1..] == rest;
    assert [step] + [] == [step];
  }

  /** A step has at most one more row accepted. */
  lemma StepAcceptsAtMostOne(w: World, step: Step)
    ensures var v := Apply(w, step); v.accepted == w.accepted || (exists id :: v.accepted == w.accepted + [id])
  {
  }

  lemma RunNothing(w: World)
    ensures Run(w, []) == w
  {
  }

  function SaveEffect(w: World, fate: SaveFate): World
    requires w.process.Writing?
  {
    match fate
    case Saved => w.(disk := Disk(Some(Whole(w.watermark)), None), process := AfterSave(w.process, true))
    case WriteError(torn) => w.(disk := w.disk.(tmp := if torn then Some(Torn) else w.disk.tmp), process := AfterSave(w.process, false))
    case RenameError => w.(disk := w.disk.(tmp := Some(Whole(w.watermark))), process := AfterSave(w.process, false))
  }

  lemma RunSave(w: World, fate: SaveFate)
    requires w.process.Writing?
    ensures Run(w, SaveSteps(fate)) == SaveEffect(w, fate)
  {
    match fate {
      case Saved => RunStep(w, WriteOk, [RenameOk]); RunStep(Apply(w, WriteOk), RenameOk, []);
      case WriteError(torn) => RunStep(w, WriteFails(torn), []);
      case RenameError => RunStep(w, WriteOk, [RenameFails]); RunStep(Apply(w, WriteOk), RenameFails, []);
    }
  }

  lemma ScanRunsOut(w: World, fate: nat -> PostFate, k: nat)
    ensures w.process == Scanning([]) ==> Run(w, ScanSteps([], fate, k)) == w.(process := Ready)
  {
    RunStep(w, ScanEnds, []);
  }

  /** The first row of a scan, and what is left to run after it. */
  lemma ForwardFirst(w: World, fate: nat -> PostFate, k: nat)
    requires w.process.Scanning? && w.process.rest != []
    ensures var rows := w.process.rest;
            Run(w, ScanSteps(rows, fate, k)) ==
              if fate(k).Refused? || !Deliverable(rows[0]) then Apply(w, PostRefused)
              else if fate(k).Unheard? then Apply(w, PostUnheard)
              else if fate(k).Delayed? then Apply(w, PostDelayed)
              else Run(SaveEffect(Apply(w, PostHeard), fate(k).save), ScanSteps(rows[1..], fate, k + 1))
  {
    var rows := w.process.rest;
    if fate(k).Refused? || !Deliverable(rows[0]) {
      RunStep(w, PostRefused, []);
    } else if fate(k).Unheard? {
      RunStep(w, PostUnheard, []);
    } else if fate(k).Delayed? {
      RunStep(w, PostDelayed, []);
    } else {
      var save := SaveSteps(fate(k).save);
      var rest := ScanSteps(rows[1..], fate, k + 1);
      assert ScanSteps(rows, fate, k) == [PostHeard] + (save + rest);
      RunStep(w, PostHeard, save + rest);
      RunSplit(Apply(w, PostHeard), save, rest);
      RunSave(Apply(w, PostHeard), fate(k).save);
    }
  }

  function Ids(rows: seq<ChatRow>): (ids: seq<int>)
    ensures |ids| == |rows|
  {
    seq(|rows|, i requires 0 <= i < |rows| => rows[i].id)
  }

  /** How many rows a pass hands over and hears of before the first failure. */
  function Heards(rows: seq<ChatRow>, fate: nat -> PostFate, k: nat): (n: nat)
    ensures n <= |rows|
    decreases |rows|
  {
    if rows == [] || !Deliverable(rows[0]) || !fate(k).Heard? then 0 else 1 + Heards(rows[1..], fate, k + 1)
  }

  ghost predicate PassedTo(w: World, v: World, rows: seq<ChatRow>, fate: nat -> PostFate, k: nat) {
    var n := Heards(rows, fate, k);
    var posted := n < |rows| && Deliverable(rows[n]);
    && v.process == Ready && v.chat == w.chat && v.base == w.base
    && v.accepted == w.accepted + Ids(rows[..n]) + (if posted && fate(k + n).Unheard? then [rows[n].id] else [])
    && v.late == w.late + (if posted && fate(k + n).Delayed? then multiset{rows[n].id} else multiset{})
    && v.watermark == (if n == 0 then w.watermark else rows[n - 1].id)
  }

  lemma PassedOne(w: World, next: World, v: World, rows: seq<ChatRow>, fate: nat -> PostFate, k: nat)
    requires rows != [] && Deliverable(rows[0]) && fate(k).Heard? && PassedTo(next, v, rows[1..], fate, k + 1)
    requires next.accepted == w.accepted + [rows[0].id] && next.watermark == rows[0].id
    requires next.chat == w.chat && next.base == w.base && next.late == w.late
    ensures PassedTo(w, v, rows, fate, k)
  {
    hide Deliverable;
    var n := Heards(rows[1..], fate, k + 1);
    assert Heards(rows, fate, k) == 1 + n;
    assert rows[..1 + n] == [rows[0]] + rows[1..][..n];
    assert Ids(rows[..1 + n]) == [rows[0].id] + Ids(rows[1..][..n]);
    assert n > 0 ==> rows[1..][n - 1] == rows[n];
    assert n < |rows[1..]| ==> rows[1..][n] == rows[1 + n];
  }

  /** What a pass comes to: the rows before the first failure are accepted in order, the
      watermark is the last of them whatever saves fail, and of the failing row only a lost
      response or a request on the wire leaves a trace. */
  lemma {:induction false} PassMeans(w: World, fate: nat -> PostFate, k: nat)
    requires w.process.Scanning?
    ensures PassedTo(w, Run(w, ScanSteps(w.process.rest, fate, k)), w.process.rest, fate, k)
    decreases |w.process.rest|
  {
    hide Run, ScanSteps;
    var rows := w.process.rest;
    if rows == [] {
      ScanRunsOut(w, fate, k);
    } else {
      ForwardFirst(w, fate, k);
      if Deliverable(rows[0]) && fate(k).Heard? {
        var next := SaveEffect(Apply(w, PostHeard), fate(k).save);
        PassMeans(next, fate, k + 1);
        hide PassedTo, Heards;
        PassedOne(w, next, Run(w, ScanSteps(rows, fate, k)), rows, fate, k);
      }
    }
  }

  /** And a scan makes that pass over everything above the watermark when the table can be
      read and no row among it has a NULL handle; otherwise it does nothing. */
  lemma ScanMeans(w: World, readable: bool, fate: nat -> PostFate)
    requires w.process.Ready?
    ensures var rows := Select(w.chat, w.watermark); var n := Heards(rows, fate, 0); var v := ScanResult(w, readable, fate);
            if !readable || exists r :: r in rows && r.handle.None? then v == w
            else
              && v.process == Ready && w.accepted + Ids(rows[..n]) <= v.accepted
              && v.watermark == (if n == 0 then w.watermark else rows[n - 1].id)
  {
    hide Select, Run, ScanSteps, Heards;
    var rows := Select(w.chat, w.watermark);
    if readable && forall r :: r in rows ==> r.handle.Some? {
      assert Scannable(rows);
      PassMeans(w.(process := Scanning(rows)), fate, 0);
    } else if readable {
      var r :| r in rows && r.handle.None?;
      assert !Scannable(rows);
    }
  }

  /** A pass that meets no fault hands over every selected row, in order, and leaves
      the watermark, in memory and on disk, at the last of them. */
  lemma {:induction false} CleanScanForwardsAll(w: World, k: nat)
    requires w.process.Scanning? && forall r :: r in w.process.rest ==> Deliverable(r)
    ensures var rows := w.process.rest;
            var r := Run(w, ScanSteps(rows, _ => Heard(Saved), k));
            && r.accepted == w.accepted + Ids(rows) && r.process.Ready?
            && (rows != [] ==> r.watermark == rows[|rows| - 1].id && Loaded(r.disk) == Some(r.watermark))
    decreases |w.process.rest|
  {
    var rows := w.process.rest;
    if rows == [] {
      RunStep(w, ScanEnds, []);
    } else {
      ForwardFirst(w, _ => Heard(Saved), k);
      var next := SaveEffect(Apply(w, PostHeard), Saved);
      CleanScanForwardsAll(next, k + 1);
      assert Ids(rows) == [rows[0].id] + Ids(rows[1..]);
      if |rows| == 1 { RunStep(next, ScanEnds, []); }
    }
  }
}
