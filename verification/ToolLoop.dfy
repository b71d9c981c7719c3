/** The tool-calling loop and its paused iterations. */
module ToolLoop {
  // Ask the model, run the calls it makes, nudge it when it only narrates, and pause after a
  // bounded number of rounds; a later "continue" resumes. The model, the tools and the
  // phrase heuristics are an arbitrary oracle.

  import opened Common
  import opened ResponsesInput

  const MAX_TOOL_ROUNDS: nat := 16
  const MAX_NUDGES: nat := 3

  datatype ChatReply =
    | Failed(deadline: bool)
    | Reply(content: string, thinking: string, calls: seq<Call>)

  datatype ToolReply = Returned(out: string) | Refused(error: string)

  datatype Need = Need(needed: bool, hint: string)

  /** `chat` answers by round, `exec` by round and position in that round's calls;
      `needs` is needsAction for the turn's user message; `anchor` is the system message
      a loaded protocol re-injects. */
  datatype Oracle = Oracle(
    chat: nat -> ChatReply,
    exec: (nat, nat) -> ToolReply,
    needs: string -> Need,
    anchor: string -> Option<string>,
    nudge: string -> string)

  /** One executed tool call and the output reported to the model. */
  datatype Exec = Exec(name: string, args: string, out: string)

  /** A list of messages handed to the model, and how many calls had run by then. */
  datatype Ask = Ask(messages: seq<Message>, execs: nat)

  datatype Loop = Loop(
    messages: seq<Message>,
    ran: set<string>,
    results: seq<string>,
    nudges: nat,
    thinking: string,
    asked: seq<Ask>,
    execs: seq<Exec>)

  datatype Outcome =
    | TooSlow
    | ModelError
    | Interrupted
    | Answer(text: string)
    | Summary(text: string)
    | CouldNotAct
    | Paused(messages: seq<Message>)

  datatype Turn = Turn(outcome: Outcome, loop: Loop)

  function Begin(messages: seq<Message>): Loop {
    Loop(messages, {}, [], 0, "", [], [])
  }

  predicate ManagementRan(ran: set<string>) {
    "set_status" in ran || "set_context" in ran || "add_vip" in ran || "delete_vip" in ran ||
    "set_access" in ran || "save_protocol" in ran || "delete_protocol" in ran
  }

  /** Whether the tool family a hint names already ran. */
  predicate HintSatisfied(hint: string, ran: set<string>) {
    if hint == "send_message" then "send_message" in ran || "send_imessage" in ran || "relay_to_master" in ran
    else if hint == "list_protocols" || hint == "load_protocol" then "list_protocols" in ran || "load_protocol" in ran
    else if hint == "relay_to_master" then "relay_to_master" in ran || "send_message" in ran || "send_imessage" in ran
    else if hint == "web_search" then "web_search" in ran
    else if hint == "get_state" then "get_state" in ran
    else ManagementRan(ran)
  }

  function Brief(s: string, max: nat): string {
    if |s| <= max then s else s[..max] + ['\U{2026}']
  }

  function Lines(results: seq<string>): string {
    if results == [] then "" else Lines(results[..|results| - 1]) + "\n- " + results[|results| - 1]
  }

  function CompletedSummary(results: seq<string>): string {
    if results == [] then "" else "Done, Sir \U{2014} here is exactly what has been carried out:" + Lines(results)
  }

  function Reported(r: ToolReply): string {
    match r
    case Returned(out) => out
    case Refused(error) => "Error: " + error
  }

  /** Execute one call and append its output, then the anchor of a protocol that was
      just loaded. */
  function RunCall(o: Oracle, s: Loop, round: nat, j: nat, call: Call): Loop {
    var reply := o.exec(round, j);
    var out := Reported(reply);
    var anchor := if call.name == "load_protocol" && reply.Returned? then o.anchor(out) else None;
    s.(messages := s.messages + [Say(Tool, out)] + (if anchor.Some? then [Say(System, anchor.value)] else []),
       ran := s.ran + {call.name},
       results := s.results + [call.name + ": " + Brief(out, 120)],
       execs := s.execs + [Exec(call.name, call.args, out)])
  }

  function RunCalls(o: Oracle, s: Loop, round: nat, calls: seq<Call>, j: nat): Loop
    requires j <= |calls|
    decreases |calls| - j
  {
    if j == |calls| then s else RunCalls(o, RunCall(o, s, round, j, calls[j]), round, calls, j + 1)
  }

  function Asking(s: Loop): Loop {
    s.(asked := s.asked + [Ask(s.messages, |s.execs|)])
  }

  function Heard(s: Loop, thinking: string): Loop {
    if thinking != "" then s.(thinking := thinking) else s
  }

  function Nudged(o: Oracle, s: Loop, content: string, hint: string): Loop {
    s.(nudges := s.nudges + 1, messages := s.messages + [Say(Assistant, content), Say(System, o.nudge(hint))])
  }

  function Calling(o: Oracle, s: Loop, round: nat, content: string, calls: seq<Call>): Loop {
    RunCalls(o, s.(messages := s.messages + [Message(Assistant, content, calls, [])]), round, calls, 0)
  }

  /** A round with no calls ends the loop, unless the narration must be nudged. */
  predicate Settles(o: Oracle, s: Loop, content: string) {
    !o.needs(content).needed || HintSatisfied(o.needs(content).hint, s.ran)
  }

  function GiveUp(s: Loop): Outcome {
    if CompletedSummary(s.results) != "" then Summary(CompletedSummary(s.results)) else CouldNotAct
  }

  datatype Next = Stop(outcome: Outcome, loop: Loop) | Go(loop: Loop)

  /** One round. */
  function Round(o: Oracle, s: Loop, round: nat): Next {
    match o.chat(round)
    case Failed(deadline) =>
      Stop(if deadline then TooSlow else if round == 0 then ModelError else Interrupted, Asking(s))
    case Reply(content, thinking, calls) =>
      var b := Heard(Asking(s), thinking);
      if calls != [] then Go(Calling(o, b, round, content, calls))
      else if Settles(o, b, content) then Stop(Answer(content), b)
      else if b.nudges >= MAX_NUDGES then Stop(GiveUp(b), b)
      else Go(Nudged(o, b, content, o.needs(content).hint))
  }

  function Rounds(o: Oracle, s: Loop, round: nat): Turn
    decreases MAX_TOOL_ROUNDS - round, s
  {
    if round >= MAX_TOOL_ROUNDS then Turn(Paused(s.messages), s)
    else
      match Round(o, s, round)
      case Stop(outcome, l) => Turn(outcome, l)
      case Go(l) => Rounds(o, l, round + 1)
  }

  function RunLoop(o: Oracle, messages: seq<Message>): Turn {
    Rounds(o, Begin(messages), 0)
  }

  // -------------------------------------------------- what a list accounts for

  lemma {:induction false} Snoc(ms: seq<Message>, m: Message)
    ensures CallsIn(ms + [m]) == CallsIn(ms) + (if m.role.Tool? then [] else m.calls)
    ensures OutputsIn(ms + [m]) == OutputsIn(ms) + (if m.role.Tool? then [m.content] else [])
    ensures NoOrphans(ms + [m]) <==> NoOrphans(ms) && |OutputsIn(ms + [m])| <= |CallsIn(ms + [m])|
  {
    assert (ms + [m])[..|ms|] == ms;
  }

  /** Beyond start, the list holds exactly the executed calls, each with its own
      output, and then the calls in todo that have not run yet. */
  ghost predicate Accounts(ms: seq<Message>, start: seq<Message>, execs: seq<Exec>, todo: seq<Call>) {
    var cs := CallsIn(ms);
    var os := OutputsIn(ms);
    var n := |CallsIn(start)|;
    && start <= ms && NoOrphans(ms)
    && |cs| == n + |execs| + |todo| && |os| == n + |execs|
    && (forall t :: 0 <= t < |execs| ==>
          cs[n + t].name == execs[t].name && cs[n + t].args == execs[t].args && os[n + t] == execs[t].out)
    && cs[n + |execs|..] == todo
  }

  lemma AccountsText(ms: seq<Message>, start: seq<Message>, execs: seq<Exec>, todo: seq<Call>, m: Message)
    requires Accounts(ms, start, execs, todo) && !m.role.Tool? && m.calls == []
    ensures Accounts(ms + [m], start, execs, todo)
  {
    Snoc(ms, m);
  }

  lemma AccountsOutput(ms: seq<Message>, start: seq<Message>, execs: seq<Exec>, todo: seq<Call>, out: string)
    requires Accounts(ms, start, execs, todo) && todo != []
    ensures Accounts(ms + [Say(Tool, out)], start, execs + [Exec(todo[0].name, todo[0].args, out)], todo[1..])
  {
    Snoc(ms, Say(Tool, out));
    var cs := CallsIn(ms);
    var n := |CallsIn(start)| + |execs|;
    assert cs[n] == cs[n..][0];
    assert cs[n + 1..] == cs[n..][1..];
  }

  ghost predicate AsksOk(s: Loop, start: seq<Message>) {
    forall k :: 0 <= k < |s.asked| ==>
      s.asked[k].execs <= |s.execs| && Accounts(s.asked[k].messages, start, s.execs[..s.asked[k].execs], [])
  }

  /** At most 120 characters of an output. */
  function Short(out: string): string {
    if |out| > 120 then out[..120] + "\U{2026}" else out
  }

  /** `ran` is the set of executed tool names and there is one result line a call, its name
      and a short form of its output. */
  ghost predicate Ledger(s: Loop) {
    && |s.results| == |s.execs|
    && (forall t :: 0 <= t < |s.execs| ==> s.results[t] == s.execs[t].name + ": " + Short(s.execs[t].out))
    && (forall name :: name in s.ran <==> exists t :: 0 <= t < |s.execs| && s.execs[t].name == name)
  }

  ghost predicate Sound(s: Loop, start: seq<Message>, todo: seq<Call>) {
    Accounts(s.messages, start, s.execs, todo) && AsksOk(s, start) && Ledger(s)
  }

  lemma LedgerCall(s: Loop, name: string, line: string, e: Exec)
    requires Ledger(s) && e.name == name && line == name + ": " + Short(e.out)
    ensures Ledger(s.(ran := s.ran + {name}, results := s.results + [line], execs := s.execs + [e]))
  {
    var more := s.execs + [e];
    forall x ensures x in s.ran + {name} <==> exists t :: 0 <= t < |more| && more[t].name == x {
      if x == name {
        assert more[|s.execs|].name == x;
      } else if x in s.ran {
        var t :| 0 <= t < |s.execs| && s.execs[t].name == x;
        assert more[t].name == x;
      }
    }
  }

  lemma RunCallLedger(o: Oracle, s: Loop, round: nat, j: nat, call: Call)
    requires Ledger(s)
    ensures Ledger(RunCall(o, s, round, j, call))
  {
    var e := Exec(call.name, call.args, Reported(o.exec(round, j)));
    assert Brief(e.out, 120) == Short(e.out);
    hide Brief, Short, Ledger, Reported;
    LedgerCall(s, call.name, call.name + ": " + Brief(e.out, 120), e);
    SameLedger(s.(ran := s.ran + {call.name}, results := s.results + [call.name + ": " + Brief(e.out, 120)], execs := s.execs + [e]),
               RunCall(o, s, round, j, call));
  }

  lemma SameLedger(s: Loop, r: Loop)
    requires Ledger(s) && r.ran == s.ran && r.results == s.results && r.execs == s.execs
    ensures Ledger(r)
  {
  }

  lemma RunCallAccounts(o: Oracle, s: Loop, round: nat, j: nat, call: Call, start: seq<Message>, todo: seq<Call>)
    requires Accounts(s.messages, start, s.execs, [call] + todo)
    ensures var r := RunCall(o, s, round, j, call); Accounts(r.messages, start, r.execs, todo)
  {
    hide Accounts, Brief;
    var r := RunCall(o, s, round, j, call);
    var e := Exec(call.name, call.args, Reported(o.exec(round, j)));
    AccountsOutput(s.messages, start, s.execs, [call] + todo, e.out);
    assert ([call] + todo)[1..] == todo;
    var ms := s.messages + [Say(Tool, e.out)];
    if |r.messages| > |ms| {
      AccountsText(ms, start, r.execs, todo, r.messages[|ms|]);
      assert r.messages == ms + [r.messages[|ms|]];
    } else {
      assert r.messages == ms;
    }
  }

  lemma RunCallSound(o: Oracle, s: Loop, round: nat, j: nat, call: Call, start: seq<Message>, todo: seq<Call>)
    requires Sound(s, start, [call] + todo)
    ensures Sound(RunCall(o, s, round, j, call), start, todo)
  {
    hide Accounts, Ledger, Brief, Reported;
    RunCallLedger(o, s, round, j, call);
    RunCallAccounts(o, s, round, j, call, start, todo);
    var r := RunCall(o, s, round, j, call);
    forall k | 0 <= k < |r.asked|
      ensures r.asked[k].execs <= |r.execs| && Accounts(r.asked[k].messages, start, r.execs[..r.asked[k].execs], [])
    {
      assert r.execs[..r.asked[k].execs] == s.execs[..s.asked[k].execs];
    }
  }

  lemma {:induction false} RunCallsSound(o: Oracle, s: Loop, round: nat, calls: seq<Call>, j: nat, start: seq<Message>)
    requires j <= |calls| && Sound(s, start, calls[j..])
    ensures Sound(RunCalls(o, s, round, calls, j), start, [])
    decreases |calls| - j
  {
    if j < |calls| {
      assert calls[j..] == [calls[j]] + calls[j + 1..];
      RunCallSound(o, s, round, j, calls[j], start, calls[j + 1..]);
      RunCallsSound(o, RunCall(o, s, round, j, calls[j]), round, calls, j + 1, start);
    }
  }

  /** Rounds are counted: one ask a round, and every round so far was a nudge or ran
      at least one call. */
  predicate Counted(s: Loop, round: nat) {
    && |s.asked| == round <= MAX_TOOL_ROUNDS
    && s.nudges <= MAX_NUDGES
    && |s.execs| + s.nudges >= round
    && |s.results| == |s.execs|
  }

  lemma {:induction false} RunCallsCount(o: Oracle, s: Loop, round: nat, calls: seq<Call>, j: nat)
    requires j <= |calls| && |s.results| == |s.execs|
    ensures var r := RunCalls(o, s, round, calls, j);
            && |r.execs| == |s.execs| + |calls| - j && |r.results| == |r.execs|
            && r.nudges == s.nudges && r.asked == s.asked
    decreases |calls| - j
  {
    if j < |calls| { RunCallsCount(o, RunCall(o, s, round, j, calls[j]), round, calls, j + 1); }
  }

  lemma AskingSound(s: Loop, start: seq<Message>, thinking: string)
    requires Sound(s, start, [])
    ensures Sound(Heard(Asking(s), thinking), start, [])
  {
    var r := Heard(Asking(s), thinking);
    forall k | 0 <= k < |r.asked|
      ensures r.asked[k].execs <= |r.execs| && Accounts(r.asked[k].messages, start, r.execs[..r.asked[k].execs], [])
    {
      if k == |s.asked| { assert s.execs[..|s.execs|] == s.execs; }
    }
  }

  lemma NudgedSound(o: Oracle, s: Loop, content: string, hint: string, start: seq<Message>)
    requires Sound(s, start, [])
    ensures Sound(Nudged(o, s, content, hint), start, [])
  {
    AccountsText(s.messages, start, s.execs, [], Say(Assistant, content));
    AccountsText(s.messages + [Say(Assistant, content)], start, s.execs, [], Say(System, o.nudge(hint)));
    assert s.messages + [Say(Assistant, content)] + [Say(System, o.nudge(hint))]
        == s.messages + [Say(Assistant, content), Say(System, o.nudge(hint))];
  }

  lemma CallingSound(o: Oracle, s: Loop, round: nat, content: string, calls: seq<Call>, start: seq<Message>)
    requires Sound(s, start, [])
    ensures Sound(Calling(o, s, round, content, calls), start, [])
  {
    assert calls[0..] == calls;
    RunCallsSound(o, s.(messages := s.messages + [Message(Assistant, content, calls, [])]), round, calls, 0, start);
  }

  lemma RoundSound(o: Oracle, s: Loop, round: nat, start: seq<Message>)
    requires Sound(s, start, [])
    ensures Sound(Round(o, s, round).loop, start, [])
  {
    match o.chat(round) {
      case Failed(deadline) => AskingSound(s, start, "");
      case Reply(content, thinking, calls) =>
        var b := Heard(Asking(s), thinking);
        AskingSound(s, start, thinking);
        if calls != [] {
          CallingSound(o, b, round, content, calls, start);
        } else {
          NudgedSound(o, b, content, o.needs(content).hint, start);
        }
    }
  }

  /** Every list handed to the model, and the list a pause keeps, accounts for exactly
      the calls executed so far. */
  lemma {:induction false} RoundsSound(o: Oracle, s: Loop, round: nat, start: seq<Message>)
    requires Sound(s, start, [])
    ensures Sound(Rounds(o, s, round).loop, start, [])
    decreases MAX_TOOL_ROUNDS - round
  {
    hide Sound, Round;
    if round < MAX_TOOL_ROUNDS {
      RoundSound(o, s, round, start);
      var next := Round(o, s, round);
      if next.Go? { RoundsSound(o, next.loop, round + 1, start); }
    }
  }

  /** What the loop promises with each outcome. */
  ghost predicate Justified(o: Oracle, turn: Turn) {
    var s := turn.loop;
    match turn.outcome
    case Answer(text) => Settles(o, s, text)
    case CouldNotAct => s.execs == [] && s.nudges == MAX_NUDGES
    case Summary(text) => s.execs != [] && s.nudges == MAX_NUDGES && text == CompletedSummary(s.results)
    case Paused(ms) => ms == s.messages && |s.asked| == MAX_TOOL_ROUNDS && |s.execs| >= MAX_TOOL_ROUNDS - MAX_NUDGES
    case ModelError => |s.asked| == 1
    case Interrupted => |s.asked| > 1
    case TooSlow => true
  }

  lemma SummaryEmptyExactlyWhen(results: seq<string>)
    ensures CompletedSummary(results) == "" <==> results == []
  {
    hide Lines;
  }

  lemma RoundCounts(o: Oracle, s: Loop, round: nat)
    requires Counted(s, round) && round < MAX_TOOL_ROUNDS
    ensures var next := Round(o, s, round);
            && |next.loop.asked| <= MAX_TOOL_ROUNDS && next.loop.nudges <= MAX_NUDGES
            && (next.Go? ==> Counted(next.loop, round + 1))
            && (next.Stop? ==> Justified(o, Turn(next.outcome, next.loop)))
  {
    hide RunCalls, Settles, CompletedSummary;
    SummaryEmptyExactlyWhen(s.results);
    match o.chat(round) {
      case Failed(deadline) =>
      case Reply(content, thinking, calls) =>
        var b := Heard(Asking(s), thinking);
        RunCallsCount(o, b.(messages := b.messages + [Message(Assistant, content, calls, [])]), round, calls, 0);
    }
  }

  lemma {:induction false} RoundsJustified(o: Oracle, s: Loop, round: nat)
    requires Counted(s, round)
    ensures var t := Rounds(o, s, round);
            Justified(o, t) && |t.loop.asked| <= MAX_TOOL_ROUNDS && t.loop.nudges <= MAX_NUDGES
    decreases MAX_TOOL_ROUNDS - round
  {
    hide Round;
    if round < MAX_TOOL_ROUNDS {
      RoundCounts(o, s, round);
      var next := Round(o, s, round);
      if next.Go? { RoundsJustified(o, next.loop, round + 1); }
    }
  }

  // ----------------------------------------------------------------- theorems

  lemma BeginSound(start: seq<Message>)
    requires Balanced(start)
    ensures Sound(Begin(start), start, [])
  {
    assert CallsIn(start)[|CallsIn(start)|..] == [];
  }

  /** At most 16 model calls and 3 nudges, and every outcome is earned: a plain answer
      needed no action or had its hint satisfied, an apology for not acting means no tool
      ran, a summary means some did, and a pause comes after exactly 16 rounds and at
      least 13 executed calls. */
  lemma EveryOutcomeIsJustified(o: Oracle, messages: seq<Message>)
    ensures var t := RunLoop(o, messages);
            && Justified(o, t) && |t.loop.asked| <= 16 && t.loop.nudges <= 3
            && (t.outcome.Paused? ==> |t.loop.asked| == 16 && |t.loop.execs| >= 13)
  {
    RoundsJustified(o, Begin(messages), 0);
  }

  lemma AskAccounts(o: Oracle, messages: seq<Message>, k: nat)
    requires Balanced(messages) && k < |RunLoop(o, messages).loop.asked|
    ensures var l := RunLoop(o, messages).loop;
            l.asked[k].execs <= |l.execs| && Accounts(l.asked[k].messages, messages, l.execs[..l.asked[k].execs], [])
  {
    BeginSound(messages);
    RoundsSound(o, Begin(messages), 0, messages);
  }

  lemma {:induction false} AccountsBinds(ms: seq<Message>, start: seq<Message>, execs: seq<Exec>, t: nat)
    requires Accounts(ms, start, execs, []) && Balanced(ms) && t < |execs|
    ensures var items := Items(ms);
            var n := |CallsIn(start)| + t;
            && n < |CallItems(items)| == |OutputItems(items)|
            && CallItems(items)[n].name == execs[t].name
            && CallItems(items)[n].args == execs[t].args
            && OutputItems(items)[n] == OutputItem(CallItems(items)[n].callId, execs[t].out)
  {
    hide Items, Balanced, NoOrphans, CallItems, OutputItems, CallsIn, OutputsIn;
    BindsKth(ms, |CallsIn(start)| + t);
  }

  lemma AccountsBalanced(ms: seq<Message>, start: seq<Message>, execs: seq<Exec>)
    requires Accounts(ms, start, execs, [])
    ensures start <= ms && Balanced(ms)
  {}

  /** Whatever the model does, every list it is ever handed translates to paired items:
      the queue of waiting calls is empty at every round boundary. */
  lemma EveryAskIsPaired(o: Oracle, messages: seq<Message>, k: nat)
    requires Balanced(messages) && k < |RunLoop(o, messages).loop.asked|
    ensures var ask := RunLoop(o, messages).loop.asked[k].messages;
            messages <= ask && Balanced(ask) && Paired(Items(ask)) && Convert(ask).pending == []
  {
    AskAccounts(o, messages, k);
    var a := RunLoop(o, messages).loop.asked[k];
    AccountsBalanced(a.messages, messages, RunLoop(o, messages).loop.execs[..a.execs]);
    PairedIffBalanced(a.messages);
    QueueEndsEmpty(a.messages);
  }

  /** And each executed call is shown to the model with its own result: the t-th call
      of the turn appears under its name and arguments, and the output under its id is
      what that execution returned. */
  lemma ResultsReachTheirCalls(o: Oracle, messages: seq<Message>, k: nat, t: nat)
    requires Balanced(messages) && k < |RunLoop(o, messages).loop.asked|
    requires t < RunLoop(o, messages).loop.asked[k].execs
    ensures var l := RunLoop(o, messages).loop;
            var items := Items(l.asked[k].messages);
            var n := |CallsIn(messages)| + t;
            && t < |l.execs| && n < |CallItems(items)| == |OutputItems(items)|
            && CallItems(items)[n].name == l.execs[t].name
            && CallItems(items)[n].args == l.execs[t].args
            && OutputItems(items)[n] == OutputItem(CallItems(items)[n].callId, l.execs[t].out)
  {
    AskAccounts(o, messages, k);
    var l := RunLoop(o, messages).loop;
    var a := l.asked[k];
    AccountsBalanced(a.messages, messages, l.execs[..a.execs]);
    AccountsBinds(a.messages, messages, l.execs[..a.execs], t);
  }

  /** A paused list extends the one the turn began with and is balanced again, so the
      iteration can be resumed any number of times. */
  lemma PausedIsResumable(o: Oracle, messages: seq<Message>, userMsg: string)
    requires Balanced(messages) && RunLoop(o, messages).outcome.Paused?
    ensures var ms := RunLoop(o, messages).outcome.messages;
            messages <= ms && Balanced(ms) && Balanced(ms + [Say(User, userMsg)])
  {
    BeginSound(messages);
    RoundsSound(o, Begin(messages), 0, messages);
    RoundsJustified(o, Begin(messages), 0);
    Snoc(RunLoop(o, messages).outcome.messages, Say(User, userMsg));
  }

  /** Words are never enough: when the reply claims or owes an action and no tool ran,
      it is not passed on. */
  lemma NoUnbackedAnswer(o: Oracle, messages: seq<Message>)
    requires Balanced(messages) && RunLoop(o, messages).outcome.Answer?
    requires o.needs(RunLoop(o, messages).outcome.text).needed
    ensures RunLoop(o, messages).loop.execs != []
  {
    var t := RunLoop(o, messages);
    RoundsJustified(o, Begin(messages), 0);
    BeginSound(messages);
    RoundsSound(o, Begin(messages), 0, messages);
    HintNeedsATool(o.needs(t.outcome.text).hint, t.loop.ran);
    assert t.loop.ran != {};
    var name :| name in t.loop.ran;
  }

  lemma HintNeedsATool(hint: string, ran: set<string>)
    ensures HintSatisfied(hint, ran) ==> ran != {}
  {}

  // ------------------------------------------------------------ round by round

  lemma {:induction false} RunCallsExtend(o: Oracle, s: Loop, round: nat, calls: seq<Call>, j: nat)
    requires j <= |calls|
    ensures s.execs <= RunCalls(o, s, round, calls, j).execs && s.messages <= RunCalls(o, s, round, calls, j).messages
    decreases |calls| - j
  {
    if j < |calls| { RunCallsExtend(o, RunCall(o, s, round, j, calls[j]), round, calls, j + 1); }
  }

  lemma RoundExtends(o: Oracle, s: Loop, round: nat)
    ensures var l := Round(o, s, round).loop;
            l.asked == s.asked + [Ask(s.messages, |s.execs|)] && s.execs <= l.execs && s.messages <= l.messages
  {
    hide RunCalls, Settles;
    if o.chat(round).Reply? {
      var b := Heard(Asking(s), o.chat(round).thinking);
      var c := b.(messages := b.messages + [Message(Assistant, o.chat(round).content, o.chat(round).calls, [])]);
      RunCallsExtend(o, c, round, o.chat(round).calls, 0);
      RunCallsKeepAsked(o, c, round, o.chat(round).calls, 0);
    }
  }

  lemma {:induction false} RunCallsKeepAsked(o: Oracle, s: Loop, round: nat, calls: seq<Call>, j: nat)
    requires j <= |calls|
    ensures RunCalls(o, s, round, calls, j).asked == s.asked && RunCalls(o, s, round, calls, j).nudges == s.nudges
    decreases |calls| - j
  {
    if j < |calls| { RunCallsKeepAsked(o, RunCall(o, s, round, j, calls[j]), round, calls, j + 1); }
  }

  lemma {:induction false} RoundsExtend(o: Oracle, s: Loop, round: nat)
    ensures var l := Rounds(o, s, round).loop; s.asked <= l.asked && s.execs <= l.execs
    decreases MAX_TOOL_ROUNDS - round
  {
    hide Round;
    if round < MAX_TOOL_ROUNDS {
      RoundExtends(o, s, round);
      var next := Round(o, s, round);
      if next.Go? { RoundsExtend(o, next.loop, round + 1); }
    }
  }

  /** How many of the first r replies made no call. */
  function Narrations(o: Oracle, r: nat): nat {
    if r == 0 then 0 else Narrations(o, r - 1) + (if o.chat(r - 1).Reply? && o.chat(r - 1).calls == [] then 1 else 0)
  }

  lemma RoundNarrates(o: Oracle, s: Loop, round: nat)
    requires s.nudges == Narrations(o, round) && Round(o, s, round).Go?
    ensures Round(o, s, round).loop.nudges == Narrations(o, round + 1)
  {
    hide RunCalls, Settles;
    var b := Heard(Asking(s), o.chat(round).thinking);
    RunCallsKeepAsked(o, b.(messages := b.messages + [Message(Assistant, o.chat(round).content, o.chat(round).calls, [])]),
                      round, o.chat(round).calls, 0);
  }

  /** The loop's state as the model is asked for the r-th time. */
  lemma {:induction false} AtRound(o: Oracle, messages: seq<Message>, r: nat) returns (s: Loop)
    requires Balanced(messages) && r < |RunLoop(o, messages).loop.asked|
    ensures Sound(s, messages, []) && Counted(s, r) && s.nudges == Narrations(o, r)
    ensures r < MAX_TOOL_ROUNDS && Rounds(o, s, r) == RunLoop(o, messages)
    ensures var l := RunLoop(o, messages).loop; l.asked[r] == Ask(s.messages, |s.execs|) && s.execs <= l.execs
  {
    hide Sound, Round, Justified;
    var l := RunLoop(o, messages).loop;
    RoundsJustified(o, Begin(messages), 0);
    if r == 0 {
      s := Begin(messages);
      BeginSound(messages);
    } else {
      var before := AtRound(o, messages, r - 1);
      var next := Round(o, before, r - 1);
      RoundExtends(o, before, r - 1);
      RoundSound(o, before, r - 1, messages);
      RoundCounts(o, before, r - 1);
      assert next.Go?;
      RoundNarrates(o, before, r - 1);
      s := next.loop;
    }
    RoundExtends(o, s, r);
    RoundsExtend(o, s, r);
    var next := Round(o, s, r);
    if next.Go? { RoundsExtend(o, next.loop, r + 1); }
    assert l.asked[r] == (s.asked + [Ask(s.messages, |s.execs|)])[r];
  }

  /** One of the calls executed so far named one of these tools. */
  ghost predicate Ran(execs: seq<Exec>, names: set<string>) {
    exists t :: 0 <= t < |execs| && execs[t].name in names
  }

  lemma RanAmong(s: Loop, names: set<string>)
    requires Ledger(s)
    ensures Ran(s.execs, names) <==> exists name :: name in names && name in s.ran
  {
    if name :| name in names && name in s.ran { assert exists t :: 0 <= t < |s.execs| && s.execs[t].name == name; }
  }

  /** Which tools back which claim. */
  lemma HintMeans(s: Loop, hint: string)
    requires Ledger(s)
    ensures HintSatisfied(hint, s.ran) <==>
            if hint == "web_search" then Ran(s.execs, {"web_search"})
            else if hint == "get_state" then Ran(s.execs, {"get_state"})
            else if hint in {"send_message", "relay_to_master"}
            then Ran(s.execs, {"send_message", "send_imessage", "relay_to_master"})
            else if hint in {"list_protocols", "load_protocol"} then Ran(s.execs, {"list_protocols", "load_protocol"})
            else Ran(s.execs, {"set_status", "set_context", "add_vip", "delete_vip", "set_access", "save_protocol", "delete_protocol"})
  {
    hide Ledger, Ran;
    RanAmong(s, {"web_search"});
    RanAmong(s, {"get_state"});
    RanAmong(s, {"send_message", "send_imessage", "relay_to_master"});
    RanAmong(s, {"list_protocols", "load_protocol"});
    RanAmong(s, {"set_status", "set_context", "add_vip", "delete_vip", "set_access", "save_protocol", "delete_protocol"});
  }

  /** A reply without calls ends the turn as its answer exactly when it owes no action or
      a tool that backs its claim was executed in an earlier round: a search for a search,
      a state reading for a state, a message or relay for either, a protocol listing or
      loading for either, and one of the management tools for any other claim. */
  lemma ReplyEndsExactlyWhen(o: Oracle, messages: seq<Message>, r: nat)
    requires Balanced(messages) && r < |RunLoop(o, messages).loop.asked|
    requires o.chat(r).Reply? && o.chat(r).calls == []
    ensures RunLoop(o, messages).loop.asked[r].execs <= |RunLoop(o, messages).loop.execs|
    ensures var t := RunLoop(o, messages);
            var ran := t.loop.execs[..t.loop.asked[r].execs];
            var need := o.needs(o.chat(r).content);
            |t.loop.asked| == r + 1 && t.outcome == Answer(o.chat(r).content) <==>
            || !need.needed
            || (if need.hint == "web_search" then Ran(ran, {"web_search"})
                else if need.hint == "get_state" then Ran(ran, {"get_state"})
                else if need.hint in {"send_message", "relay_to_master"}
                then Ran(ran, {"send_message", "send_imessage", "relay_to_master"})
                else if need.hint in {"list_protocols", "load_protocol"} then Ran(ran, {"list_protocols", "load_protocol"})
                else Ran(ran, {"set_status", "set_context", "add_vip", "delete_vip", "set_access", "save_protocol", "delete_protocol"}))
  {
    hide HintSatisfied, RunLoop, Ran, Accounts, AsksOk;
    var s := AtRound(o, messages, r);
    var b := Heard(Asking(s), o.chat(r).thinking);
    HintMeans(s, o.needs(o.chat(r).content).hint);
    assert RunLoop(o, messages).loop.execs[..|s.execs|] == s.execs;
    var next := Round(o, s, r);
    if next.Go? { GoesOn(o, next.loop, r + 1); }
  }

  /** A round that does not end the loop leads to another ask or to the pause. */
  lemma GoesOn(o: Oracle, l: Loop, round: nat)
    ensures var t := Rounds(o, l, round);
            if round < MAX_TOOL_ROUNDS then |t.loop.asked| > |l.asked| && t.loop.asked[|l.asked|] == Ask(l.messages, |l.execs|)
            else t == Turn(Paused(l.messages), l)
    ensures l.execs <= Rounds(o, l, round).loop.execs
  {
    hide Round;
    RoundsExtend(o, l, round);
    if round < MAX_TOOL_ROUNDS {
      RoundExtends(o, l, round);
      var next := Round(o, l, round);
      if next.Go? { RoundsExtend(o, next.loop, round + 1); }
    }
  }

  /** What the model is shown after round r, or what a pause keeps. */
  function ShownNext(t: Turn, r: nat): seq<Message> {
    if r + 1 < |t.loop.asked| then t.loop.asked[r + 1].messages else t.loop.messages
  }

  /** How many calls have run once round r is over. */
  function RunBy(t: Turn, r: nat): nat {
    if r + 1 < |t.loop.asked| then t.loop.asked[r + 1].execs else |t.loop.execs|
  }

  /** A reply that does not end the turn is shown back with a nudge for its claim; after
      three of these the turn ends with a summary of what ran, or an apology when nothing
      did. */
  lemma NarrationIsNudged(o: Oracle, messages: seq<Message>, r: nat)
    requires Balanced(messages) && r < |RunLoop(o, messages).loop.asked|
    requires o.chat(r).Reply? && o.chat(r).calls == []
    requires var t := RunLoop(o, messages); !(|t.loop.asked| == r + 1 && t.outcome == Answer(o.chat(r).content))
    ensures var t := RunLoop(o, messages);
            if Narrations(o, r) < 3 then
              && (t.outcome.Paused? || |t.loop.asked| > r + 1)
              && ShownNext(t, r) == t.loop.asked[r].messages + [Say(Assistant, o.chat(r).content)]
                                    + [Say(System, o.nudge(o.needs(o.chat(r).content).hint))]
            else
              |t.loop.asked| == r + 1 && (if t.loop.execs == [] then t.outcome.CouldNotAct? else t.outcome.Summary?)
  {
    hide HintSatisfied, RunLoop, Sound, CompletedSummary;
    var s := AtRound(o, messages, r);
    SummaryEmptyExactlyWhen(s.results);
    var next := Round(o, s, r);
    if next.Go? { GoesOn(o, next.loop, r + 1); }
    assert s.messages + [Say(Assistant, o.chat(r).content)] + [Say(System, o.nudge(o.needs(o.chat(r).content).hint))]
        == s.messages + [Say(Assistant, o.chat(r).content), Say(System, o.nudge(o.needs(o.chat(r).content).hint))];
  }

  /** One line for each of the first n calls executed. */
  function Bullets(execs: seq<Exec>, n: nat): string
    requires n <= |execs|
  {
    if n == 0 then "" else Bullets(execs, n - 1) + ("\n- " + (execs[n - 1].name + ": " + Short(execs[n - 1].out)))
  }

  lemma {:induction false} LinesAreBullets(s: Loop, n: nat)
    requires Ledger(s) && n <= |s.execs|
    ensures Lines(s.results[..n]) == Bullets(s.execs, n)
  {
    hide Ledger, Short;
    if n > 0 {
      LinesAreBullets(s, n - 1);
      LineOf(s, n - 1);
      assert s.results[..n][..n - 1] == s.results[..n - 1];
      assert Lines(s.results[..n]) == Lines(s.results[..n - 1]) + "\n- " + s.results[n - 1];
    }
  }

  lemma LineOf(s: Loop, t: nat)
    requires Ledger(s) && t < |s.execs|
    ensures |s.results| == |s.execs| && s.results[t] == s.execs[t].name + ": " + Short(s.execs[t].out)
  {
  }

  /** The summary says exactly what ran: every executed call, in order, with its name and a
      short form of its output. */
  lemma SummaryIsOfWhatRan(o: Oracle, messages: seq<Message>)
    requires Balanced(messages) && RunLoop(o, messages).outcome.Summary?
    ensures var t := RunLoop(o, messages);
            t.outcome.text == "Done, Sir \U{2014} here is exactly what has been carried out:" + Bullets(t.loop.execs, |t.loop.execs|)
  {
    hide Accounts, AsksOk, Bullets, Lines;
    var l := RunLoop(o, messages).loop;
    RoundsJustified(o, Begin(messages), 0);
    BeginSound(messages);
    RoundsSound(o, Begin(messages), 0, messages);
    LinesAreBullets(l, |l.execs|);
    assert l.results[..|l.execs|] == l.results;
  }

  /** The last of the first n replies' reasoning that was not empty. */
  function LastThought(o: Oracle, n: nat): string {
    if n == 0 then ""
    else if o.chat(n - 1).Reply? && o.chat(n - 1).thinking != "" then o.chat(n - 1).thinking
    else LastThought(o, n - 1)
  }

  lemma {:induction false} RunCallsKeepThinking(o: Oracle, s: Loop, round: nat, calls: seq<Call>, j: nat)
    requires j <= |calls|
    ensures RunCalls(o, s, round, calls, j).thinking == s.thinking
    decreases |calls| - j
  {
    if j < |calls| { RunCallsKeepThinking(o, RunCall(o, s, round, j, calls[j]), round, calls, j + 1); }
  }

  lemma RoundThinks(o: Oracle, s: Loop, round: nat)
    requires s.thinking == LastThought(o, round)
    ensures Round(o, s, round).loop.thinking == LastThought(o, round + 1)
  {
    hide RunCalls, Settles, CompletedSummary;
    if o.chat(round).Reply? {
      var b := Heard(Asking(s), o.chat(round).thinking);
      RunCallsKeepThinking(o, b.(messages := b.messages + [Message(Assistant, o.chat(round).content, o.chat(round).calls, [])]),
                           round, o.chat(round).calls, 0);
    }
  }

  lemma {:induction false} RoundsThink(o: Oracle, s: Loop, round: nat)
    requires s.thinking == LastThought(o, round) && |s.asked| == round
    ensures var l := Rounds(o, s, round).loop; l.thinking == LastThought(o, |l.asked|)
    decreases MAX_TOOL_ROUNDS - round
  {
    hide Round;
    if round < MAX_TOOL_ROUNDS {
      RoundThinks(o, s, round);
      RoundExtends(o, s, round);
      var next := Round(o, s, round);
      if next.Go? { RoundsThink(o, next.loop, round + 1); }
    }
  }

  /** What is kept of the model's reasoning is the last that was not empty. */
  lemma ReasoningIsLast(o: Oracle, messages: seq<Message>)
    ensures var l := RunLoop(o, messages).loop; l.thinking == LastThought(o, |l.asked|)
  {
    RoundsThink(o, Begin(messages), 0);
  }

  /** A model call that fails ends the turn: too slow past the deadline, an error in the
      first round, an interruption later. */
  lemma FailureEnds(o: Oracle, messages: seq<Message>, r: nat)
    requires Balanced(messages) && r < |RunLoop(o, messages).loop.asked| && o.chat(r).Failed?
    ensures var t := RunLoop(o, messages);
            && |t.loop.asked| == r + 1
            && (t.outcome.TooSlow? <==> o.chat(r).deadline)
            && (t.outcome.ModelError? <==> !o.chat(r).deadline && r == 0)
            && (t.outcome.Interrupted? <==> !o.chat(r).deadline && r > 0)
  {
    hide RunLoop, Sound;
    var s := AtRound(o, messages, r);
  }

  /** The messages the first n calls of a round leave behind: each output, right after it
      the anchor of a protocol that was loaded. */
  function Replies(o: Oracle, r: nat, calls: seq<Call>, n: nat): seq<Message>
    requires n <= |calls|
  {
    if n == 0 then []
    else
      var reply := o.exec(r, n - 1);
      Replies(o, r, calls, n - 1)
      + [Say(Tool, if reply.Refused? then "Error: " + reply.error else reply.out)]
      + (if calls[n - 1].name == "load_protocol" && reply.Returned? && o.anchor(reply.out).Some?
         then [Say(System, o.anchor(reply.out).value)] else [])
  }

  lemma {:induction false} RunCallsReply(o: Oracle, s: Loop, round: nat, calls: seq<Call>, j: nat)
    requires j <= |calls|
    ensures var e := RunCalls(o, s, round, calls, j);
            && |e.execs| == |s.execs| + |calls| - j
            && (forall k :: j <= k < |calls| ==>
                  e.execs[|s.execs| + k - j] == Exec(calls[k].name, calls[k].args, Reported(o.exec(round, k))))
    ensures forall before :: s.messages == before + Replies(o, round, calls, j) ==>
              RunCalls(o, s, round, calls, j).messages == before + Replies(o, round, calls, |calls|)
    decreases |calls| - j
  {
    if j < |calls| {
      var c := RunCall(o, s, round, j, calls[j]);
      RunCallsReply(o, c, round, calls, j + 1);
      RunCallsExtend(o, c, round, calls, j + 1);
      forall before | s.messages == before + Replies(o, round, calls, j)
        ensures c.messages == before + Replies(o, round, calls, j + 1)
      {
      }
    }
  }

  /** A reply with calls never ends the turn: every call runs, in order, under its name and
      arguments, and the model is shown the reply, each output and each loaded protocol. */
  lemma CallsAreRun(o: Oracle, messages: seq<Message>, r: nat)
    requires Balanced(messages) && r < |RunLoop(o, messages).loop.asked|
    requires o.chat(r).Reply? && o.chat(r).calls != []
    ensures var t := RunLoop(o, messages);
            var calls, n := o.chat(r).calls, t.loop.asked[r].execs;
            && (t.outcome.Paused? || |t.loop.asked| > r + 1)
            && RunBy(t, r) == n + |calls| <= |t.loop.execs|
            && (forall j :: 0 <= j < |calls| ==>
                  && t.loop.execs[n + j].name == calls[j].name && t.loop.execs[n + j].args == calls[j].args
                  && t.loop.execs[n + j].out == match o.exec(r, j) case Returned(out) => out case Refused(error) => "Error: " + error)
            && ShownNext(t, r) == t.loop.asked[r].messages + [Message(Assistant, o.chat(r).content, calls, [])]
                                  + Replies(o, r, calls, |calls|)
  {
    hide RunLoop, Sound, RunCalls, Replies;
    var s := AtRound(o, messages, r);
    var calls := o.chat(r).calls;
    var b := Heard(Asking(s), o.chat(r).thinking);
    var c := b.(messages := b.messages + [Message(Assistant, o.chat(r).content, calls, [])]);
    var e := RunCalls(o, c, r, calls, 0);
    RunCallsReply(o, c, r, calls, 0);
    assert Round(o, s, r) == Go(e);
    assert c.messages == c.messages + Replies(o, r, calls, 0) by { NoReplies(o, r, calls); }
    GoesOn(o, e, r + 1);
    RoundExtends(o, s, r);
  }

  lemma NoReplies(o: Oracle, r: nat, calls: seq<Call>)
    ensures Replies(o, r, calls, 0) == []
  {
  }

  // ----------------------------------------------------------------- the loop

  method RunToolLoop(o: Oracle, messages0: seq<Message>) returns (outcome: Outcome, ghost loop: Loop)
    ensures outcome == RunLoop(o, messages0).outcome
    ensures loop == RunLoop(o, messages0).loop
  {
    hide RunCalls, HintSatisfied, CompletedSummary;
    var messages := messages0;
    var ranTools: set<string> := {};
    var ranResults: seq<string> := [];
    var nudges := 0;
    loop := Begin(messages);
    for round := 0 to MAX_TOOL_ROUNDS
      invariant loop.messages == messages && loop.ran == ranTools && loop.results == ranResults && loop.nudges == nudges
      invariant Rounds(o, loop, round) == RunLoop(o, messages0)
    {
      var reply := o.chat(round);
      ghost var before := loop;
      loop := Asking(loop);
      if reply.Failed? {
        if reply.deadline { return TooSlow, loop; }
        if round == 0 { return ModelError, loop; }
        return Interrupted, loop;
      }
      loop := Heard(loop, reply.thinking);
      if |reply.calls| == 0 {
        var need := o.needs(reply.content);
        if !need.needed || HintSatisfied(need.hint, ranTools) { return Answer(reply.content), loop; }
        if nudges >= MAX_NUDGES {
          var summary := CompletedSummary(ranResults);
          if summary != "" { return Summary(summary), loop; }
          return CouldNotAct, loop;
        }
        nudges := nudges + 1;
        loop := Nudged(o, loop, reply.content, need.hint);
        messages := messages + [Say(Assistant, reply.content)];
        messages := messages + [Say(System, o.nudge(need.hint))];
        assert messages == loop.messages;
      } else {
        messages := messages + [Message(Assistant, reply.content, reply.calls, [])];
        loop := loop.(messages := messages);
        messages, ranTools, ranResults, loop := RunTools(o, round, reply.calls, messages, ranTools, ranResults, loop);
      }
    }
    return Paused(messages), loop;
  }

  method RunTools(o: Oracle, round: nat, calls: seq<Call>,
                  messages0: seq<Message>, ranTools0: set<string>, ranResults0: seq<string>, ghost loop0: Loop)
    returns (messages: seq<Message>, ranTools: set<string>, ranResults: seq<string>, ghost loop: Loop)
    requires loop0.messages == messages0 && loop0.ran == ranTools0 && loop0.results == ranResults0
    ensures loop == RunCalls(o, loop0, round, calls, 0)
    ensures messages == RunCalls(o, loop0, round, calls, 0).messages
    ensures ranTools == RunCalls(o, loop0, round, calls, 0).ran
    ensures ranResults == RunCalls(o, loop0, round, calls, 0).results
    ensures loop.nudges == loop0.nudges
  {
    messages, ranTools, ranResults, loop := messages0, ranTools0, ranResults0, loop0;
    for j := 0 to |calls|
      invariant loop.messages == messages && loop.ran == ranTools && loop.results == ranResults && loop.nudges == loop0.nudges
      invariant RunCalls(o, loop, round, calls, j) == RunCalls(o, loop0, round, calls, 0)
    {
      var tc := calls[j];
      loop := RunCall(o, loop, round, j, tc);
      var result := o.exec(round, j);
      var out := Reported(result);
      ranTools := ranTools + {tc.name};
      ranResults := ranResults + [tc.name + ": " + Brief(out, 120)];
      messages := messages + [Say(Tool, out)];
      if tc.name == "load_protocol" && result.Returned? {
        var anchor := o.anchor(out);
        if anchor.Some? { messages := messages + [Say(System, anchor.value)]; }
      }
      assert messages == loop.messages;
    }
  }

  // ------------------------------------------------------- paused iterations

  datatype HistoryLine = HistoryLine(fromAssistant: bool, content: string)

  /** The list a fresh turn begins with: the prompt, the stored history with the
      disclosure aside before its last line, tool hints and a protocol anchor. */
  function Opening(prompt: string, history: seq<HistoryLine>, aside: Option<string>,
                   hints: Option<string>, anchor: Option<string>): seq<Message>
  {
    Extra(Some(prompt)) + Conversation(history, aside) + Extra(hints) + Extra(anchor)
  }

  function Conversation(history: seq<HistoryLine>, aside: Option<string>): seq<Message> {
    var lines := seq(|history|, i requires 0 <= i < |history| =>
      Say(if history[i].fromAssistant then Assistant else User, history[i].content));
    if aside.Some? && history != []
    then lines[..|lines| - 1] + [Say(Assistant, aside.value)] + lines[|lines| - 1..]
    else lines
  }

  function Extra(note: Option<string>): seq<Message> {
    if note.Some? then [Say(System, note.value)] else []
  }

  /** The prompt comes first, then the stored lines in order, each in its own role, with the
      aside just before the last of them, then the hints and the anchor. */
  lemma OpeningMeans(prompt: string, history: seq<HistoryLine>, aside: Option<string>,
                     hints: Option<string>, anchor: Option<string>)
    ensures var ms := Opening(prompt, history, aside, hints, anchor);
            var n := |history|;
            var extra := if aside.Some? && n > 0 then 1 else 0;
            var after := 1 + n + extra;
            && |ms| == after + (if hints.Some? then 1 else 0) + (if anchor.Some? then 1 else 0)
            && ms[0] == Message(System, prompt, [], [])
            && (forall i :: 0 <= i < n - extra ==>
                  ms[1 + i] == Message(if history[i].fromAssistant then Assistant else User, history[i].content, [], []))
            && (extra == 1 ==>
                  && ms[n] == Message(Assistant, aside.value, [], [])
                  && ms[n + 1] == Message(if history[n - 1].fromAssistant then Assistant else User, history[n - 1].content, [], []))
            && (hints.Some? ==> ms[after] == Message(System, hints.value, [], []))
            && (anchor.Some? ==> ms[|ms| - 1] == Message(System, anchor.value, [], []))
  {
  }

  /** No tool traffic at all. */
  predicate Plain(ms: seq<Message>) {
    forall k :: 0 <= k < |ms| ==> !ms[k].role.Tool? && ms[k].calls == []
  }

  lemma ConversationIsPlain(history: seq<HistoryLine>, aside: Option<string>)
    ensures Plain(Conversation(history, aside))
  {
  }

  lemma ExtraIsPlain(note: Option<string>)
    ensures Plain(Extra(note))
  {
  }

  lemma PlainJoins(a: seq<Message>, b: seq<Message>)
    requires Plain(a) && Plain(b)
    ensures Plain(a + b)
  {
  }

  /** Stored history carries no tool calls or outputs, so a fresh turn begins plain. */
  lemma OpeningIsPlain(prompt: string, history: seq<HistoryLine>, aside: Option<string>,
                       hints: Option<string>, anchor: Option<string>)
    ensures Plain(Opening(prompt, history, aside, hints, anchor))
    ensures Balanced(Opening(prompt, history, aside, hints, anchor))
  {
    hide Balanced, Plain, Conversation, Extra;
    ConversationIsPlain(history, aside);
    ExtraIsPlain(hints);
    ExtraIsPlain(anchor);
    ExtraIsPlain(Some(prompt));
    PlainJoins(Extra(Some(prompt)), Conversation(history, aside));
    PlainJoins(Extra(Some(prompt)) + Conversation(history, aside), Extra(hints));
    PlainJoins(Extra(Some(prompt)) + Conversation(history, aside) + Extra(hints), Extra(anchor));
    PlainBalanced(Opening(prompt, history, aside, hints, anchor));
  }

  lemma {:induction false} PlainBalanced(ms: seq<Message>)
    requires Plain(ms)
    ensures Balanced(ms) && CallsIn(ms) == []
  {
    if ms != [] { PlainBalanced(ms[..|ms| - 1]); }
  }

  ghost predicate AllPaired(asked: seq<Ask>) {
    forall k :: 0 <= k < |asked| ==> Paired(Items(asked[k].messages))
  }

  lemma TurnOk(o: Oracle, messages: seq<Message>)
    requires Balanced(messages)
    ensures AllPaired(RunLoop(o, messages).loop.asked)
    ensures RunLoop(o, messages).outcome.Paused? ==> Balanced(RunLoop(o, messages).outcome.messages)
  {
    hide RunLoop, Paired, Balanced;
    var t := RunLoop(o, messages);
    forall k | 0 <= k < |t.loop.asked| ensures Paired(Items(t.loop.asked[k].messages)) { EveryAskIsPaired(o, messages, k); }
    if t.outcome.Paused? { PausedIsResumable(o, messages, ""); }
  }

  type PausedBySender = map<string, seq<Message>>

  ghost predicate AllBalanced(pending: PausedBySender) {
    forall sender :: sender in pending ==> Balanced(pending[sender])
  }

  /** The list a turn begins with: the sender's paused one plus the new message when it
      says "continue", otherwise the fresh opening. */
  function StartOf(pending: PausedBySender, sender: string, userMsg: string, isContinue: bool, opening: seq<Message>): seq<Message> {
    if isContinue && sender in pending then pending[sender] + [Say(User, userMsg)] else opening
  }

  lemma StartBalanced(pending: PausedBySender, sender: string, userMsg: string, isContinue: bool, opening: seq<Message>)
    requires AllBalanced(pending)
    requires Plain(opening)
    ensures Balanced(StartOf(pending, sender, userMsg, isContinue, opening))
  {
    PlainBalanced(opening);
    if isContinue && sender in pending { Snoc(pending[sender], Say(User, userMsg)); }
  }

  /** The paused iterations, one a sender. */
  class Service {
    var pending: PausedBySender

    ghost predicate Valid()
      reads this
    {
      AllBalanced(pending)
    }

    constructor ()
      ensures Valid() && pending == map[]
    {
      pending := map[];
    }

    /** One model turn: resume the sender's paused iteration on "continue", otherwise
        drop it and start afresh. In every turn, resumed or not, each list the model
        sees is paired. */
    method TakeTurn(sender: string, userMsg: string, isContinue: bool, opening: seq<Message>, o: Oracle)
      returns (outcome: Outcome, ghost loop: Loop)
      requires Valid()
      requires Plain(opening)
      modifies this
      ensures Valid()
      ensures Turn(outcome, loop) ==
              RunLoop(o, if isContinue && sender in old(pending) then old(pending)[sender] + [Say(User, userMsg)] else opening)
      ensures AllPaired(loop.asked)
      ensures pending == if outcome.Paused? then old(pending)[sender := outcome.messages] else old(pending) - {sender}
    {
      ghost var start0 := StartOf(pending, sender, userMsg, isContinue, opening);
      StartBalanced(pending, sender, userMsg, isContinue, opening);
      TurnOk(o, start0);
      var start := opening;
      if sender in pending {
        if isContinue { start := pending[sender] + [Say(User, userMsg)]; }
        pending := pending - {sender};
      }
      outcome, loop := RunToolLoop(o, start);
      if outcome.Paused? { pending := pending[sender := outcome.messages]; }
    }
  }
}
