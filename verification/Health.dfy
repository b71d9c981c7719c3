/** The health monitor: one pass over the checkers, and what it tells the Master when.
    A probe's answer is an input, and a checker may depend on another that comes before
    it in the list; `at` and `hour` are the poll's one clock reading. */
module Health {
  import opened Common

  datatype State = Healthy | Unhealthy | Unknown

  /** What a probe comes back with: an error that wraps no Failure is `Failed(false, "")`. */
  datatype Outcome = Fine | CannotTell | Failed(urgent: bool, hint: string)

  datatype Checker = Checker(name: string, tools: seq<string>, onlyIfHealthy: string)

  datatype Policy = Policy(grace: int, remindEvery: int, dayStart: int, dayEnd: int)

  /** New's timings, in seconds. */
  const DEFAULTS := Policy(1800, 21600, 7, 22)

  datatype Reading = Reading(state: State, urgent: bool, hint: string, at: int, hour: int)

  datatype Track = Track(prev: State, downSince: Option<int>, lastNotify: Option<int>)

  const FRESH := Track(Unknown, None, None)

  datatype Push = Silent | Back | Down

  datatype Judged = Judged(track: Track, push: Push)

  predicate Daytime(p: Policy, r: Reading) {
    p.dayStart <= r.hour < p.dayEnd
  }

  predicate Due(p: Policy, r: Reading, since: int, last: Option<int>) {
    && (last.Some? ==> r.at - last.value >= p.remindEvery)
    && (r.urgent || (r.at - since >= p.grace && (Daytime(p, r) || r.at - since >= p.remindEvery)))
  }

  /** One checker's share of a poll. */
  function Judge(p: Policy, t: Track, r: Reading): Judged {
    match r.state
    case Unknown => Judged(t, Silent)
    case Healthy =>
      if t.prev == Unhealthy then Judged(Track(Healthy, None, Some(r.at)), Back)
      else Judged(Track(Healthy, None, t.lastNotify), Silent)
    case Unhealthy =>
      var since := if t.downSince.Some? then t.downSince.value else r.at;
      if Due(p, r, since, t.lastNotify) then Judged(Track(Unhealthy, Some(since), Some(r.at)), Down)
      else Judged(Track(Unhealthy, Some(since), t.lastNotify), Silent)
  }

  // ------------------------------------------------------ one checker's history

  /** The tracking after the first n readings. */
  function After(p: Policy, h: seq<Reading>, n: nat): Track
    requires n <= |h|
  {
    if n == 0 then FRESH else Judge(p, After(p, h, n - 1), h[n - 1]).track
  }

  function PushAt(p: Policy, h: seq<Reading>, n: nat): Push
    requires n < |h|
  {
    Judge(p, After(p, h, n), h[n]).push
  }

  /** The last of the first n readings that could tell. */
  function LastDecided(h: seq<Reading>, n: nat): State
    requires n <= |h|
  {
    if n == 0 then Unknown
    else if h[n - 1].state == Unknown then LastDecided(h, n - 1)
    else h[n - 1].state
  }

  /** The current outage began at k: the first unhealthy reading since the last healthy one. */
  predicate Onset(h: seq<Reading>, n: nat, k: nat) {
    && k < n <= |h| && h[k].state == Unhealthy && LastDecided(h, k) != Unhealthy
    && forall j :: k < j < n ==> h[j].state != Healthy
  }

  predicate LastPush(p: Policy, h: seq<Reading>, n: nat, m: nat) {
    && m < n <= |h| && PushAt(p, h, m) != Silent
    && forall j: nat :: m < j < n ==> PushAt(p, h, j) == Silent
  }

  predicate Ordered(h: seq<Reading>) {
    forall i, j :: 0 <= i < j < |h| ==> h[i].at <= h[j].at
  }

  lemma {:induction false} PrevIsLastDecided(p: Policy, h: seq<Reading>, n: nat)
    requires n <= |h|
    ensures After(p, h, n).prev == LastDecided(h, n)
    ensures After(p, h, n).downSince.Some? <==> LastDecided(h, n) == Unhealthy
  {
    if n > 0 { PrevIsLastDecided(p, h, n - 1); }
  }

  lemma {:induction false} OutageLasts(h: seq<Reading>, n: nat, k: nat)
    requires k < n <= |h| && h[k].state == Unhealthy && forall j :: k < j < n ==> h[j].state != Healthy
    ensures LastDecided(h, n) == Unhealthy
    decreases n
  {
    if k < n - 1 { OutageLasts(h, n - 1, k); }
  }

  lemma OneOnset(h: seq<Reading>, n: nat, j: nat, k: nat)
    requires Onset(h, n, j) && Onset(h, n, k)
    ensures j == k
  {
    if j < k { OutageLasts(h, k, j); } else if k < j { OutageLasts(h, j, k); }
  }

  /** The tracking dates the outage from its onset at k. */
  predicate DatedFrom(p: Policy, h: seq<Reading>, n: nat, k: nat) {
    Onset(h, n, k) && After(p, h, n).downSince == Some(h[k].at)
  }

  lemma {:induction false} OutageHasOnset(p: Policy, h: seq<Reading>, n: nat)
    requires n <= |h| && After(p, h, n).downSince.Some?
    ensures exists k: nat :: DatedFrom(p, h, n, k)
  {
    PrevIsLastDecided(p, h, n - 1);
    if After(p, h, n - 1).downSince.Some? {
      OutageHasOnset(p, h, n - 1);
      var k: nat :| DatedFrom(p, h, n - 1, k);
      assert DatedFrom(p, h, n, k);
    } else {
      assert DatedFrom(p, h, n, n - 1);
    }
  }

  lemma NoOutage(h: seq<Reading>, n: nat, k: nat)
    requires k < n <= |h| && forall j :: k < j < n ==> h[j].state != Healthy
    ensures h[k].state == Unhealthy ==> LastDecided(h, n) == Unhealthy
  {
    if h[k].state == Unhealthy { OutageLasts(h, n, k); }
  }

  /** downSince holds a checker exactly while its last telling result was unhealthy, and is
      the time of the first such poll since it was last healthy. */
  lemma {:induction false} DownSinceIsOnset(p: Policy, h: seq<Reading>, n: nat, at: int)
    requires n <= |h|
    ensures After(p, h, n).downSince.Some? <==> LastDecided(h, n) == Unhealthy
    ensures After(p, h, n).downSince == Some(at) <==> exists k: nat :: Onset(h, n, k) && h[k].at == at
  {
    PrevIsLastDecided(p, h, n);
    if After(p, h, n).downSince.Some? {
      OutageHasOnset(p, h, n);
      var k: nat :| DatedFrom(p, h, n, k);
      forall j: nat | Onset(h, n, j) ensures j == k { OneOnset(h, n, j, k); }
    } else {
      forall k: nat | k < n ensures !Onset(h, n, k) {
        if forall j :: k < j < n ==> h[j].state != Healthy { NoOutage(h, n, k); }
      }
    }
  }

  lemma {:induction false} NotifiedAtLastPush(p: Policy, h: seq<Reading>, n: nat)
    requires n <= |h|
    ensures match After(p, h, n).lastNotify
            case None => forall m: nat :: m < n ==> PushAt(p, h, m) == Silent
            case Some(at) => exists m: nat :: LastPush(p, h, n, m) && h[m].at == at
  {
    if n > 0 {
      NotifiedAtLastPush(p, h, n - 1);
      if PushAt(p, h, n - 1) != Silent {
        assert LastPush(p, h, n, n - 1);
      } else if After(p, h, n - 1).lastNotify.Some? {
        var m: nat :| LastPush(p, h, n - 1, m) && h[m].at == After(p, h, n - 1).lastNotify.value;
        assert LastPush(p, h, n, m);
      }
    }
  }

  /** No push of either kind came less than a reminder interval before n. */
  predicate Rested(p: Policy, h: seq<Reading>, n: nat) {
    forall m: nat :: m < n < |h| && PushAt(p, h, m) != Silent ==> h[n].at - h[m].at >= p.remindEvery
  }

  lemma {:induction false} RestedExactlyWhen(p: Policy, h: seq<Reading>, n: nat)
    requires Ordered(h) && n < |h|
    ensures Rested(p, h, n) <==>
            (After(p, h, n).lastNotify.Some? ==> h[n].at - After(p, h, n).lastNotify.value >= p.remindEvery)
  {
    hide PushAt, After;
    NotifiedAtLastPush(p, h, n);
    if After(p, h, n).lastNotify.Some? {
      var m: nat :| LastPush(p, h, n, m) && h[m].at == After(p, h, n).lastNotify.value;
      assert forall j: nat :: j < n && PushAt(p, h, j) != Silent ==> j <= m && h[j].at <= h[m].at;
    }
  }

  /** A "down" push goes out exactly when nothing was pushed for this checker within the
      reminder interval and the failure is urgent, or has lasted the grace period by day
      and the reminder interval as well by night. */
  lemma DownPushExactlyWhen(p: Policy, h: seq<Reading>, n: nat, k: nat)
    requires Ordered(h) && n < |h| && h[n].state == Unhealthy && Onset(h, n + 1, k)
    ensures PushAt(p, h, n) == Down <==>
            && Rested(p, h, n)
            && (h[n].urgent || (h[n].at - h[k].at >= p.grace && (p.dayStart <= h[n].hour < p.dayEnd || h[n].at - h[k].at >= p.remindEvery)))
  {
    hide Rested, Onset, LastDecided;
    RestedExactlyWhen(p, h, n);
    PushedSince(p, h, n, k);
  }

  /** With the timings the monitor is built with: half an hour by day, six hours by night,
      from seven to ten in the evening, and no reminder within six hours. */
  lemma DefaultTimings(h: seq<Reading>, n: nat, k: nat)
    requires Ordered(h) && n < |h| && h[n].state == Unhealthy && Onset(h, n + 1, k)
    ensures PushAt(DEFAULTS, h, n) == Down <==>
            && (forall m: nat :: m < n && PushAt(DEFAULTS, h, m) != Silent ==> h[n].at - h[m].at >= 21600)
            && (h[n].urgent || (h[n].at - h[k].at >= 1800 && (7 <= h[n].hour < 22 || h[n].at - h[k].at >= 21600)))
  {
    DownPushExactlyWhen(DEFAULTS, h, n, k);
  }

  lemma PushedSince(p: Policy, h: seq<Reading>, n: nat, k: nat)
    requires n < |h| && h[n].state == Unhealthy && Onset(h, n + 1, k)
    ensures h[k].at == (if After(p, h, n).downSince.Some? then After(p, h, n).downSince.value else h[n].at)
  {
    hide Onset, LastDecided, Due;
    OutageHasOnset(p, h, n + 1);
    var j: nat :| DatedFrom(p, h, n + 1, j);
    OneOnset(h, n + 1, j, k);
  }

  /** "Healthy again" goes out exactly on the first healthy result after an unhealthy one,
      whether or not the outage itself was ever announced. */
  lemma {:induction false} BackPushExactlyWhen(p: Policy, h: seq<Reading>, n: nat)
    requires n < |h|
    ensures PushAt(p, h, n) == Back <==> h[n].state == Healthy && LastDecided(h, n) == Unhealthy
  {
    PrevIsLastDecided(p, h, n);
  }

  /** A "down" push is never within the reminder interval of any earlier push. */
  lemma DownPushesAreSpaced(p: Policy, h: seq<Reading>, m: nat, n: nat)
    requires Ordered(h) && m < n < |h| && PushAt(p, h, m) != Silent && PushAt(p, h, n) == Down
    ensures h[n].at - h[m].at >= p.remindEvery
  {
    RestedExactlyWhen(p, h, n);
  }

  /** An outage past both waits is never silent: it was pushed about within the last
      reminder interval, or is being pushed now. */
  lemma LongOutageIsAnnounced(p: Policy, h: seq<Reading>, n: nat, k: nat)
    requires Ordered(h) && n < |h| && h[n].state == Unhealthy && Onset(h, n + 1, k)
    requires h[n].at - h[k].at >= p.grace && h[n].at - h[k].at >= p.remindEvery
    ensures PushAt(p, h, n) == Down ||
            exists m: nat :: m < n && PushAt(p, h, m) != Silent && h[n].at - h[m].at < p.remindEvery
  {
    DownPushExactlyWhen(p, h, n, k);
  }

  /** A result that cannot tell neither notifies nor changes tracking. */
  lemma UnknownDisturbsNothing(p: Policy, h: seq<Reading>, n: nat, rest: seq<Reading>)
    requires n < |h| && h[n].state == Unknown
    ensures PushAt(p, h, n) == Silent
    ensures After(p, h[..n] + h[n + 1..], |h| - 1) == After(p, h, |h|)
  {
    AfterPrefix(p, h, h[..n] + h[n + 1..], n);
    AfterSkipping(p, h, n, |h|);
  }

  lemma {:induction false} AfterPrefix(p: Policy, g: seq<Reading>, h: seq<Reading>, n: nat)
    requires n <= |g| && n <= |h| && g[..n] == h[..n]
    ensures After(p, g, n) == After(p, h, n)
  {
    if n > 0 {
      assert g[n - 1] == g[..n][n - 1] == h[..n][n - 1] == h[n - 1];
      assert g[..n - 1] == g[..n][..n - 1] == h[..n][..n - 1] == h[..n - 1];
      AfterPrefix(p, g, h, n - 1);
    }
  }

  lemma {:induction false} AfterSkipping(p: Policy, h: seq<Reading>, n: nat, m: nat)
    requires n < m <= |h| && h[n].state == Unknown
    ensures After(p, h[..n] + h[n + 1..], m - 1) == After(p, h, m)
    decreases m
  {
    var g := h[..n] + h[n + 1..];
    if m == n + 1 {
      AfterPrefix(p, h, g, n);
    } else {
      AfterSkipping(p, h, n, m - 1);
      assert g[m - 2] == h[m - 1];
    }
  }

  const BLIP := [
    Reading(Unhealthy, false, "", 0, 3),
    Reading(Healthy, false, "", 300, 3),
    Reading(Unhealthy, true, "grant Full Disk Access", 600, 3)]

  /** An urgent failure is not always pushed at once: the all-clear for a blip nobody was
      told about silences it for the whole reminder interval. */
  lemma UrgentCanBeSilenced()
    ensures Ordered(BLIP) && BLIP[2].state == Unhealthy && BLIP[2].urgent
    ensures PushAt(DEFAULTS, BLIP, 0) == Silent && PushAt(DEFAULTS, BLIP, 1) == Back && PushAt(DEFAULTS, BLIP, 2) == Silent
  {
  }

  // --------------------------------------------------------------- a whole poll

  datatype Finding = Finding(state: State, urgent: bool, hint: string)

  type Findings = map<string, Finding>

  datatype Round = Round(probes: seq<Outcome>, at: int, hour: int)

  predicate Suppressed(c: Checker, out: Findings) {
    c.onlyIfHealthy != "" && !(c.onlyIfHealthy in out && out[c.onlyIfHealthy].state == Healthy)
  }

  function Classify(o: Outcome): Finding {
    match o
    case Fine => Finding(Healthy, false, "")
    case CannotTell => Finding(Unknown, false, "")
    case Failed(urgent, hint) => Finding(Unhealthy, urgent, hint)
  }

  /** What the first n checkers report; a suppressed one is not probed. */
  function Checked(cs: seq<Checker>, probes: seq<Outcome>, n: nat): Findings
    requires n <= |cs| <= |probes|
  {
    if n == 0 then map[]
    else
      var out := Checked(cs, probes, n - 1);
      var f := if Suppressed(cs[n - 1], out) then Finding(Unknown, false, "") else Classify(probes[n - 1]);
      out[cs[n - 1].name := f]
  }

  predicate DistinctNames(cs: seq<Checker>) {
    forall i, j :: 0 <= i < j < |cs| ==> cs[i].name != cs[j].name
  }

  lemma {:induction false} CheckedKeys(cs: seq<Checker>, probes: seq<Outcome>, n: nat)
    requires n <= |cs| <= |probes|
    ensures forall name :: name in Checked(cs, probes, n) <==> exists i :: 0 <= i < n && cs[i].name == name
  {
    if n > 0 { CheckedKeys(cs, probes, n - 1); }
  }

  lemma {:induction false} FindingStands(cs: seq<Checker>, probes: seq<Outcome>, i: nat, n: nat)
    requires DistinctNames(cs) && i < n <= |cs| <= |probes|
    ensures cs[i].name in Checked(cs, probes, n) && cs[i].name in Checked(cs, probes, i + 1)
    ensures Checked(cs, probes, n)[cs[i].name] == Checked(cs, probes, i + 1)[cs[i].name]
    decreases n
  {
    if n > i + 1 { FindingStands(cs, probes, i, n - 1); }
  }

  function FindingOf(cs: seq<Checker>, probes: seq<Outcome>, i: nat): Finding
    requires DistinctNames(cs) && i < |cs| <= |probes|
  {
    FindingStands(cs, probes, i, |cs|);
    Checked(cs, probes, |cs|)[cs[i].name]
  }

  /** j stands before i in the list, is what i depends on, and was healthy in this poll. */
  ghost predicate EarlierHealthy(cs: seq<Checker>, probes: seq<Outcome>, i: nat, j: nat)
    requires DistinctNames(cs) && i < |cs| <= |probes|
  {
    j < i && cs[j].name == cs[i].onlyIfHealthy && FindingOf(cs, probes, j).state == Healthy
  }

  /** A checker is judged on its own probe exactly when it names no dependency or an earlier
      checker of that name was healthy in this very poll: healthy on a clean probe, unknown
      on one that cannot tell, unhealthy with the failure's urgency and hint on any other.
      Without that it counts as unknown, so a dependency listed later, or not at all,
      silences it for good. */
  lemma DependencyDecides(cs: seq<Checker>, probes: seq<Outcome>, i: nat)
    requires DistinctNames(cs) && i < |cs| <= |probes|
    ensures FindingOf(cs, probes, i) ==
            (if cs[i].onlyIfHealthy == "" || (exists j: nat :: EarlierHealthy(cs, probes, i, j))
             then match probes[i]
               case Fine => Finding(Healthy, false, "")
               case CannotTell => Finding(Unknown, false, "")
               case Failed(urgent, hint) => Finding(Unhealthy, urgent, hint)
             else Finding(Unknown, false, ""))
  {
    FindingStands(cs, probes, i, |cs|);
    var out := Checked(cs, probes, i);
    CheckedKeys(cs, probes, i);
    forall j: nat | j < i ensures cs[j].name in out && out[cs[j].name] == FindingOf(cs, probes, j) {
      FindingStands(cs, probes, j, |cs|);
      FindingStands(cs, probes, j, i);
    }
    if !Suppressed(cs[i], out) && cs[i].onlyIfHealthy != "" {
      var j :| 0 <= j < i && cs[j].name == cs[i].onlyIfHealthy;
      assert EarlierHealthy(cs, probes, i, j);
    }
  }

  /** So a checker stays unknown although what it depends on is healthy, when that is
      listed after it. */
  lemma LateDependencySilences(name: string, dependency: string, o: Outcome)
    requires name != dependency && dependency != ""
    ensures var cs := [Checker(name, [], dependency), Checker(dependency, [], "")];
            && DistinctNames(cs) && FindingOf(cs, [o, Fine], 1).state == Healthy
            && FindingOf(cs, [o, Fine], 0) == Finding(Unknown, false, "")
  {
    var cs := [Checker(name, [], dependency), Checker(dependency, [], "")];
    DependencyDecides(cs, [o, Fine], 0);
    DependencyDecides(cs, [o, Fine], 1);
  }

  type Tracks = map<string, Track>

  function Of(ts: Tracks, name: string): Track {
    if name in ts then ts[name] else FRESH
  }

  datatype Notice = IsBack(name: string) | IsDown(name: string, hint: string, tools: seq<string>)

  function Read(f: Finding, at: int, hour: int): Reading {
    Reading(f.state, f.urgent, f.hint, at, hour)
  }

  function NoticeOf(c: Checker, push: Push, hint: string): seq<Notice> {
    match push
    case Silent => []
    case Back => [IsBack(c.name)]
    case Down => [IsDown(c.name, hint, c.tools)]
  }

  datatype Swept = Swept(tracks: Tracks, notices: seq<Notice>)

  /** The policy applied to the first n checkers in turn. */
  function Sweep(p: Policy, cs: seq<Checker>, fs: Findings, ts: Tracks, at: int, hour: int, n: nat): Swept
    requires n <= |cs| && forall i :: 0 <= i < |cs| ==> cs[i].name in fs
  {
    if n == 0 then Swept(ts, [])
    else
      var s := Sweep(p, cs, fs, ts, at, hour, n - 1);
      var c := cs[n - 1];
      var j := Judge(p, Of(s.tracks, c.name), Read(fs[c.name], at, hour));
      Swept(s.tracks[c.name := j.track], s.notices + NoticeOf(c, j.push, fs[c.name].hint))
  }

  predicate WellFormed(cs: seq<Checker>, rounds: seq<Round>) {
    DistinctNames(cs) && forall k :: 0 <= k < |rounds| ==> |cs| <= |rounds[k].probes|
  }

  function FindingsOf(cs: seq<Checker>, probes: seq<Outcome>): (fs: Findings)
    requires |cs| <= |probes|
    ensures forall i :: 0 <= i < |cs| ==> cs[i].name in fs
  {
    CheckedKeys(cs, probes, |cs|);
    Checked(cs, probes, |cs|)
  }

  function Polled(p: Policy, cs: seq<Checker>, ts: Tracks, r: Round): Swept
    requires |cs| <= |r.probes|
  {
    Sweep(p, cs, FindingsOf(cs, r.probes), ts, r.at, r.hour, |cs|)
  }

  /** The monitor's tracking after the first n polls. */
  function Run(p: Policy, cs: seq<Checker>, rounds: seq<Round>, n: nat): Tracks
    requires WellFormed(cs, rounds) && n <= |rounds|
  {
    if n == 0 then map[] else Polled(p, cs, Run(p, cs, rounds, n - 1), rounds[n - 1]).tracks
  }

  /** What one checker reported, poll by poll. */
  function HistoryOf(cs: seq<Checker>, rounds: seq<Round>, i: nat): seq<Reading>
    requires WellFormed(cs, rounds) && i < |cs|
  {
    seq(|rounds|, k requires 0 <= k < |rounds| =>
      Read(FindingOf(cs, rounds[k].probes, i), rounds[k].at, rounds[k].hour))
  }

  lemma {:induction false} SweepTouchesEachOnce(
      p: Policy, cs: seq<Checker>, fs: Findings, ts: Tracks, at: int, hour: int, n: nat, i: nat)
    requires DistinctNames(cs) && n <= |cs| && i < |cs| && forall i :: 0 <= i < |cs| ==> cs[i].name in fs
    ensures Of(Sweep(p, cs, fs, ts, at, hour, n).tracks, cs[i].name) ==
            (if i < n then Judge(p, Of(ts, cs[i].name), Read(fs[cs[i].name], at, hour)).track else Of(ts, cs[i].name))
  {
    hide Judge;
    if n > 0 {
      SweepTouchesEachOnce(p, cs, fs, ts, at, hour, n - 1, i);
    }
  }

  /** Every checker is tracked by its own history alone, so all the above holds of each. */
  lemma {:induction false} EachByItsOwnHistory(p: Policy, cs: seq<Checker>, rounds: seq<Round>, n: nat, i: nat)
    requires WellFormed(cs, rounds) && n <= |rounds| && i < |cs|
    ensures Of(Run(p, cs, rounds, n), cs[i].name) == After(p, HistoryOf(cs, rounds, i), n)
  {
    if n > 0 {
      EachByItsOwnHistory(p, cs, rounds, n - 1, i);
      var r := rounds[n - 1];
      SweepTouchesEachOnce(p, cs, FindingsOf(cs, r.probes), Run(p, cs, rounds, n - 1), r.at, r.hour, |cs|, i);
    }
  }

  /** The notices a round sends, checker by checker. */
  function Expected(p: Policy, cs: seq<Checker>, rounds: seq<Round>, k: nat, n: nat): seq<Notice>
    requires WellFormed(cs, rounds) && k < |rounds| && n <= |cs|
  {
    if n == 0 then []
    else
      var h := HistoryOf(cs, rounds, n - 1);
      Expected(p, cs, rounds, k, n - 1) + NoticeOf(cs[n - 1], PushAt(p, h, k), h[k].hint)
  }

  lemma {:induction false} NoticesUpTo(p: Policy, cs: seq<Checker>, rounds: seq<Round>, k: nat, n: nat)
    requires WellFormed(cs, rounds) && k < |rounds| && n <= |cs|
    ensures Sweep(p, cs, FindingsOf(cs, rounds[k].probes), Run(p, cs, rounds, k), rounds[k].at, rounds[k].hour, n).notices
            == Expected(p, cs, rounds, k, n)
  {
    if n > 0 {
      var r := rounds[k];
      NoticesUpTo(p, cs, rounds, k, n - 1);
      SweepTouchesEachOnce(p, cs, FindingsOf(cs, r.probes), Run(p, cs, rounds, k), r.at, r.hour, n - 1, n - 1);
      EachByItsOwnHistory(p, cs, rounds, k, n - 1);
    }
  }

  /** The Master hears in each poll, in checker order, just what each history calls for. */
  lemma {:induction false} NoticesFollowHistories(p: Policy, cs: seq<Checker>, rounds: seq<Round>, k: nat)
    requires WellFormed(cs, rounds) && k < |rounds|
    ensures Polled(p, cs, Run(p, cs, rounds, k), rounds[k]).notices == Expected(p, cs, rounds, k, |cs|)
  {
    NoticesUpTo(p, cs, rounds, k, |cs|);
  }

  ghost predicate Sends(p: Policy, cs: seq<Checker>, rounds: seq<Round>, k: nat, notice: Notice)
    requires WellFormed(cs, rounds) && k < |rounds|
  {
    notice in Polled(p, cs, Run(p, cs, rounds, k), rounds[k]).notices
  }

  lemma {:induction false} NoticeNamesItsChecker(p: Policy, cs: seq<Checker>, rounds: seq<Round>, k: nat, n: nat, i: nat)
    requires WellFormed(cs, rounds) && k < |rounds| && n <= |cs| && i < |cs|
    ensures var push := PushAt(p, HistoryOf(cs, rounds, i), k);
            && (IsBack(cs[i].name) in Expected(p, cs, rounds, k, n) <==> i < n && push == Back)
            && (forall hint, tools :: IsDown(cs[i].name, hint, tools) in Expected(p, cs, rounds, k, n) <==>
                  i < n && push == Down && hint == HistoryOf(cs, rounds, i)[k].hint && tools == cs[i].tools)
  {
    hide PushAt;
    if n > 0 { NoticeNamesItsChecker(p, cs, rounds, k, n - 1, i); }
  }

  /** A checker's probe counts in a poll. */
  ghost predicate Probed(cs: seq<Checker>, probes: seq<Outcome>, i: nat)
    requires DistinctNames(cs) && i < |cs| <= |probes|
  {
    cs[i].onlyIfHealthy == "" || exists j: nat :: EarlierHealthy(cs, probes, i, j)
  }

  ghost predicate OrderedRounds(rounds: seq<Round>) {
    forall i, j :: 0 <= i < j < |rounds| ==> rounds[i].at <= rounds[j].at
  }

  /** The failed probe of a checker that counts is announced in that poll, with its hint and
      the checker's tools, exactly when nothing was pushed for it within the reminder interval
      and it is urgent, or its outage, begun in round `since`, has lasted the grace period by
      day and the reminder interval as well by night. */
  lemma FailureIsAnnouncedExactlyWhen(p: Policy, cs: seq<Checker>, rounds: seq<Round>, k: nat, i: nat, since: nat)
    requires WellFormed(cs, rounds) && OrderedRounds(rounds) && k < |rounds| && i < |cs|
    requires Probed(cs, rounds[k].probes, i) && rounds[k].probes[i].Failed?
    requires Onset(HistoryOf(cs, rounds, i), k + 1, since)
    ensures var r := rounds[k]; var downFor := r.at - rounds[since].at;
            Sends(p, cs, rounds, k, IsDown(cs[i].name, r.probes[i].hint, cs[i].tools)) <==>
            && Rested(p, HistoryOf(cs, rounds, i), k)
            && (r.probes[i].urgent || (downFor >= p.grace && (p.dayStart <= r.hour < p.dayEnd || downFor >= p.remindEvery)))
  {
    hide PushAt, Rested, Onset, Polled, Run;
    DependencyDecides(cs, rounds[k].probes, i);
    NoticesFollowHistories(p, cs, rounds, k);
    NoticeNamesItsChecker(p, cs, rounds, k, |cs|, i);
    OnsetIsPast(HistoryOf(cs, rounds, i), k + 1, since);
    DownPushExactlyWhen(p, HistoryOf(cs, rounds, i), k, since);
  }

  lemma OnsetIsPast(h: seq<Reading>, n: nat, k: nat)
    requires Onset(h, n, k)
    ensures k < n <= |h|
  {
  }

  /** So an urgent failure of a checker nothing was pushed for lately is announced in that
      very poll. */
  lemma UrgentFailureIsAnnounced(p: Policy, cs: seq<Checker>, rounds: seq<Round>, k: nat, i: nat)
    requires WellFormed(cs, rounds) && OrderedRounds(rounds) && k < |rounds| && i < |cs|
    requires Probed(cs, rounds[k].probes, i) && rounds[k].probes[i].Failed? && rounds[k].probes[i].urgent
    requires Rested(p, HistoryOf(cs, rounds, i), k)
    ensures Sends(p, cs, rounds, k, IsDown(cs[i].name, rounds[k].probes[i].hint, cs[i].tools))
  {
    hide Rested, Sends;
    var h := HistoryOf(cs, rounds, i);
    DependencyDecides(cs, rounds[k].probes, i);
    assert After(p, h, k + 1).downSince.Some? by { assert h[k].state == Unhealthy; }
    OutageHasOnset(p, h, k + 1);
    var since: nat :| DatedFrom(p, h, k + 1, since);
    FailureIsAnnouncedExactlyWhen(p, cs, rounds, k, i, since);
  }

  /** "Healthy again" is sent exactly when the probe counts, comes back clean, and the last
      telling result was a failure. */
  lemma RecoveryIsAnnouncedExactlyWhen(p: Policy, cs: seq<Checker>, rounds: seq<Round>, k: nat, i: nat)
    requires WellFormed(cs, rounds) && k < |rounds| && i < |cs|
    ensures Sends(p, cs, rounds, k, IsBack(cs[i].name)) <==>
            && Probed(cs, rounds[k].probes, i) && rounds[k].probes[i].Fine?
            && LastDecided(HistoryOf(cs, rounds, i), k) == Unhealthy
  {
    hide PushAt, Polled, Run;
    DependencyDecides(cs, rounds[k].probes, i);
    NoticesFollowHistories(p, cs, rounds, k);
    NoticeNamesItsChecker(p, cs, rounds, k, |cs|, i);
    BackPushExactlyWhen(p, HistoryOf(cs, rounds, i), k);
  }

  // ---------------------------------------------------------------- the object

  class Monitor {
    const checkers: seq<Checker>
    const policy: Policy
    var prev: map<string, State>
    var downSince: map<string, int>
    var lastNotify: map<string, int>

    /** How the maps track a name. */
    ghost function TrackOf(name: string): Track
      reads this
    {
      Track(
        if name in prev then prev[name] else Unknown,
        if name in downSince then Some(downSince[name]) else None,
        if name in lastNotify then Some(lastNotify[name]) else None)
    }

    ghost predicate Tracks(ts: map<string, Track>)
      reads this
    {
      forall name :: TrackOf(name) == Of(ts, name)
    }

    constructor (checkers: seq<Checker>, policy: Policy)
      ensures this.checkers == checkers && this.policy == policy && Tracks(map[])
    {
      this.checkers, this.policy := checkers, policy;
      prev, downSince, lastNotify := map[], map[], map[];
    }

    method CheckAll(probes: seq<Outcome>) returns (out: Findings)
      requires |checkers| <= |probes|
      ensures out == FindingsOf(checkers, probes)
    {
      out := map[];
      for i := 0 to |checkers|
        invariant out == Checked(checkers, probes, i)
      {
        var c := checkers[i];
        if c.onlyIfHealthy != "" && !(c.onlyIfHealthy in out && out[c.onlyIfHealthy].state == Healthy) {
          out := out[c.name := Finding(Unknown, false, "")];
        } else {
          out := out[c.name := Classify(probes[i])];
        }
      }
    }

    method Poll(r: Round, ghost ts: Tracks) returns (notices: seq<Notice>)
      requires |checkers| <= |r.probes| && Tracks(ts)
      modifies this
      ensures Tracks(Polled(policy, checkers, ts, r).tracks)
      ensures notices == Polled(policy, checkers, ts, r).notices
    {
      hide Judge, NoticeOf;
      var results := CheckAll(r.probes);
      notices := [];
      for i := 0 to |checkers|
        invariant Tracks(Sweep(policy, checkers, results, ts, r.at, r.hour, i).tracks)
        invariant notices == Sweep(policy, checkers, results, ts, r.at, r.hour, i).notices
      {
        ghost var now := Sweep(policy, checkers, results, ts, r.at, r.hour, i).tracks;
        var more := JudgeOne(checkers[i], results[checkers[i].name], r.at, r.hour, now);
        notices := notices + more;
      }
    }

    method JudgeOne(c: Checker, f: Finding, at: int, hour: int, ghost ts: Tracks) returns (sent: seq<Notice>)
      requires Tracks(ts)
      modifies this
      ensures var j := Judge(policy, Of(ts, c.name), Read(f, at, hour));
              Tracks(ts[c.name := j.track]) && sent == NoticeOf(c, j.push, f.hint)
    {
      ghost var j := Judge(policy, Of(ts, c.name), Read(f, at, hour));
      assert TrackOf(c.name) == Of(ts, c.name);
      sent := [];
      if f.state == Unknown { return; }
      if f.state == Healthy {
        if c.name in prev && prev[c.name] == Unhealthy {
          lastNotify := lastNotify[c.name := at];
          sent := [IsBack(c.name)];
        }
        downSince := downSince - {c.name};
        prev := prev[c.name := Healthy];
        assert TrackOf(c.name) == j.track;
        assert forall name :: name != c.name ==> TrackOf(name) == old(TrackOf(name)) == Of(ts, name);
        return;
      }
      if c.name !in downSince { downSince := downSince[c.name := at]; }
      var downFor := at - downSince[c.name];
      var rested := c.name !in lastNotify || at - lastNotify[c.name] >= policy.remindEvery;
      var due: bool;
      if f.urgent {
        due := rested;
      } else {
        var daytime := hour >= policy.dayStart && hour < policy.dayEnd;
        due := downFor >= policy.grace && (daytime || downFor >= policy.remindEvery) && rested;
      }
      if due {
        lastNotify := lastNotify[c.name := at];
        sent := [IsDown(c.name, f.hint, c.tools)];
      }
      prev := prev[c.name := Unhealthy];
      assert TrackOf(c.name) == j.track;
      assert forall name :: name != c.name ==> TrackOf(name) == old(TrackOf(name)) == Of(ts, name);
    }
  }
}
