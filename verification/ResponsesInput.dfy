/** Chat messages translated to Responses API input items. */
module ResponsesInput {
  // Tool outputs carry no call id, so the translation binds them to calls purely by
  // position, through a queue of calls still waiting for an output.

  import opened Decimal

  datatype Role = System | User | Assistant | Tool

  datatype Call = Call(id: string, name: string, args: string)

  datatype Message = Message(role: Role, content: string, calls: seq<Call>, images: seq<string>)

  datatype Item =
    | TextItem(role: Role, part: string, text: string)
    | CallItem(callId: string, name: string, args: string)
    | OutputItem(callId: string, output: string)
    | ImageItem(url: string)

  function Say(role: Role, content: string): Message {
    Message(role, content, [], [])
  }

  function Text(role: Role, content: string): Item {
    TextItem(role, if role.Assistant? then "output_text" else "input_text", content)
  }

  /** The translator's state: items so far, calls awaiting an output, and the counter
      behind generated call ids. */
  datatype Conv = Conv(items: seq<Item>, pending: seq<string>, callSeq: nat)

  function CallId(n: nat): string {
    "call_" + Itoa(n)
  }

  function AddCall(c: Conv, call: Call): Conv {
    var seqNo := if call.id == "" then c.callSeq + 1 else c.callSeq;
    var id := if call.id == "" then CallId(seqNo) else call.id;
    Conv(c.items + [CallItem(id, call.name, call.args)], c.pending + [id], seqNo)
  }

  function AddCalls(c: Conv, calls: seq<Call>): Conv
    decreases |calls|
  {
    if calls == [] then c else AddCalls(AddCall(c, calls[0]), calls[1..])
  }

  function Images(images: seq<string>): (items: seq<Item>)
    ensures |items| == |images|
  {
    seq(|images|, i requires 0 <= i < |images| => ImageItem("data:image/jpeg;base64," + images[i]))
  }

  function Add(c: Conv, m: Message): Conv {
    if m.role.Tool? then
      if c.pending != [] then Conv(c.items + [OutputItem(c.pending[0], m.content)], c.pending[1..], c.callSeq)
      else Conv(c.items + [OutputItem(CallId(c.callSeq + 1), m.content)], [], c.callSeq + 1)
    else if m.calls != [] then
      AddCalls(if m.content != "" then c.(items := c.items + [Text(m.role, m.content)]) else c, m.calls)
    else if m.content == "" && m.images == [] then c
    else c.(items := c.items + [Text(m.role, m.content)] + Images(m.images))
  }

  function Convert(ms: seq<Message>): Conv {
    if ms == [] then Conv([], [], 0) else Add(Convert(ms[..|ms| - 1]), ms[|ms| - 1])
  }

  function Items(ms: seq<Message>): seq<Item> {
    Convert(ms).items
  }

  // ------------------------------------------------- what the messages say

  /** Every tool call in the messages, in order. A tool message's own calls, if it
      had any, are not looked at. */
  function CallsIn(ms: seq<Message>): seq<Call> {
    if ms == [] then []
    else CallsIn(ms[..|ms| - 1]) + (if ms[|ms| - 1].role.Tool? then [] else ms[|ms| - 1].calls)
  }

  /** Every tool output in the messages, in order. */
  function OutputsIn(ms: seq<Message>): seq<string> {
    if ms == [] then []
    else OutputsIn(ms[..|ms| - 1]) + (if ms[|ms| - 1].role.Tool? then [ms[|ms| - 1].content] else [])
  }

  /** No output comes before its call. */
  predicate NoOrphans(ms: seq<Message>) {
    ms == [] ||
    (NoOrphans(ms[..|ms| - 1]) && |OutputsIn(ms)| <= |CallsIn(ms)|)
  }

  /** Every call has been answered and no output is an orphan. */
  predicate Balanced(ms: seq<Message>) {
    NoOrphans(ms) && |OutputsIn(ms)| == |CallsIn(ms)|
  }

  // ---------------------------------------------------- what the items say

  function CallItems(items: seq<Item>): (cs: seq<Item>)
    ensures forall k :: 0 <= k < |cs| ==> cs[k].CallItem?
  {
    if items == [] then []
    else CallItems(items[..|items| - 1]) + (if items[|items| - 1].CallItem? then [items[|items| - 1]] else [])
  }

  function OutputItems(items: seq<Item>): (os: seq<Item>)
    ensures forall k :: 0 <= k < |os| ==> os[k].OutputItem?
  {
    if items == [] then []
    else OutputItems(items[..|items| - 1]) + (if items[|items| - 1].OutputItem? then [items[|items| - 1]] else [])
  }

  /** Each output stands after its own call: no prefix has more outputs than calls. */
  ghost predicate OutputsFollow(items: seq<Item>) {
    forall n :: 0 <= n <= |items| ==> |OutputItems(items[..n])| <= |CallItems(items[..n])|
  }

  /** The k-th output answers the k-th call, by id, and stands after it. */
  ghost predicate Paired(items: seq<Item>) {
    && |OutputItems(items)| == |CallItems(items)|
    && (forall k :: 0 <= k < |CallItems(items)| ==> OutputItems(items)[k].callId == CallItems(items)[k].callId)
    && OutputsFollow(items)
  }

  lemma {:induction false} CallItemsSnoc(items: seq<Item>, x: Item)
    ensures CallItems(items + [x]) == CallItems(items) + (if x.CallItem? then [x] else [])
    ensures OutputItems(items + [x]) == OutputItems(items) + (if x.OutputItem? then [x] else [])
  {
    assert (items + [x])[..|items|] == items;
  }

  lemma {:induction false} PlainTail(items: seq<Item>, tail: seq<Item>)
    requires forall k :: 0 <= k < |tail| ==> !tail[k].CallItem? && !tail[k].OutputItem?
    ensures CallItems(items + tail) == CallItems(items) && OutputItems(items + tail) == OutputItems(items)
  {
    if tail == [] {
      assert items + tail == items;
    } else {
      var last := |tail| - 1;
      PlainTail(items, tail[..last]);
      assert items + tail == (items + tail[..last]) + [tail[last]];
      CallItemsSnoc(items + tail[..last], tail[last]);
    }
  }

  /** The outputs' ids followed by the waiting ids are the calls' ids: nothing is
      bound out of order, and nothing waiting is forgotten. */
  ghost predicate Queued(c: Conv) {
    var calls := CallItems(c.items);
    var outs := OutputItems(c.items);
    && |outs| + |c.pending| == |calls|
    && (forall k :: 0 <= k < |outs| ==> outs[k].callId == calls[k].callId)
    && (forall k :: 0 <= k < |c.pending| ==> c.pending[k] == calls[|outs| + k].callId)
    && OutputsFollow(c.items)
  }

  /** The items translate exactly the calls cs and the outputs os. */
  ghost predicate Renders(items: seq<Item>, cs: seq<Call>, os: seq<string>) {
    var calls := CallItems(items);
    var outs := OutputItems(items);
    && |calls| == |cs| && |outs| == |os|
    && (forall k :: 0 <= k < |cs| ==>
          calls[k].name == cs[k].name && calls[k].args == cs[k].args && (cs[k].id != "" ==> calls[k].callId == cs[k].id))
    && (forall k :: 0 <= k < |os| ==> outs[k].output == os[k])
  }

  lemma FollowSnoc(items: seq<Item>, x: Item)
    requires OutputsFollow(items)
    requires |OutputItems(items + [x])| <= |CallItems(items + [x])|
    ensures OutputsFollow(items + [x])
  {
    var more := items + [x];
    forall n | 0 <= n <= |more| ensures |OutputItems(more[..n])| <= |CallItems(more[..n])| {
      if n <= |items| { assert more[..n] == items[..n]; } else { assert more[..n] == more; }
    }
  }

  lemma {:induction false} PlainQueued(c: Conv, tail: seq<Item>)
    requires forall k :: 0 <= k < |tail| ==> !tail[k].CallItem? && !tail[k].OutputItem?
    requires Queued(c)
    ensures Queued(c.(items := c.items + tail))
  {
    hide OutputsFollow, CallItems, OutputItems;
    PlainTail(c.items, tail);
    if tail == [] {
      assert c.items + tail == c.items;
    } else {
      var last := |tail| - 1;
      PlainQueued(c, tail[..last]);
      PlainTail(c.items, tail[..last]);
      assert c.items + tail == (c.items + tail[..last]) + [tail[last]];
      FollowSnoc(c.items + tail[..last], tail[last]);
    }
  }

  lemma AddCallKeeps(c: Conv, call: Call, cs: seq<Call>, os: seq<string>)
    requires Renders(c.items, cs, os)
    ensures Renders(AddCall(c, call).items, cs + [call], os)
    ensures Queued(c) ==> Queued(AddCall(c, call))
  {
    var x := AddCall(c, call).items[|c.items|];
    CallItemsSnoc(c.items, x);
    if Queued(c) { FollowSnoc(c.items, x); }
  }

  lemma {:induction false} AddCallsKeeps(c: Conv, calls: seq<Call>, cs: seq<Call>, os: seq<string>)
    requires Renders(c.items, cs, os)
    ensures Renders(AddCalls(c, calls).items, cs + calls, os)
    ensures Queued(c) ==> Queued(AddCalls(c, calls))
    decreases |calls|
  {
    if calls == [] {
      assert cs + calls == cs;
    } else {
      AddCallKeeps(c, calls[0], cs, os);
      AddCallsKeeps(AddCall(c, calls[0]), calls[1..], cs + [calls[0]], os);
      assert cs + [calls[0]] + calls[1..] == cs + calls;
    }
  }

  lemma AddToolKeeps(c: Conv, m: Message, cs: seq<Call>, os: seq<string>)
    requires Renders(c.items, cs, os) && m.role.Tool?
    ensures Renders(Add(c, m).items, cs, os + [m.content])
    ensures Queued(c) && |os| < |cs| ==> Queued(Add(c, m))
  {
    hide OutputsFollow, CallItems, OutputItems;
    var x := Add(c, m).items[|c.items|];
    CallItemsSnoc(c.items, x);
    if Queued(c) && |os| < |cs| { FollowSnoc(c.items, x); }
  }

  /** The text a message contributes besides calls and outputs. */
  function ProseOf(m: Message): seq<Item> {
    if m.role.Tool? then []
    else if m.calls != [] then (if m.content == "" then [] else [Text(m.role, m.content)])
    else if m.content == "" && m.images == [] then []
    else [Text(m.role, m.content)] + Images(m.images)
  }

  /** A message that is no tool output adds its prose and then its calls. */
  lemma AddIsProseThenCalls(c: Conv, m: Message)
    requires !m.role.Tool?
    ensures Add(c, m) == AddCalls(c.(items := c.items + ProseOf(m)), m.calls)
    ensures forall k :: 0 <= k < |ProseOf(m)| ==> !ProseOf(m)[k].CallItem? && !ProseOf(m)[k].OutputItem?
  {
    assert c.items + [] == c.items;
    assert m.calls == [] && ProseOf(m) != [] ==> c.items + ProseOf(m) == c.items + [Text(m.role, m.content)] + Images(m.images);
  }

  lemma AddSaidKeeps(c: Conv, m: Message, cs: seq<Call>, os: seq<string>)
    requires Renders(c.items, cs, os) && !m.role.Tool?
    ensures Renders(Add(c, m).items, cs + m.calls, os)
    ensures Queued(c) ==> Queued(Add(c, m))
  {
    hide OutputsFollow, CallItems, OutputItems, Add, ProseOf, AddCalls;
    AddIsProseThenCalls(c, m);
    PlainTail(c.items, ProseOf(m));
    if Queued(c) { PlainQueued(c, ProseOf(m)); }
    AddCallsKeeps(c.(items := c.items + ProseOf(m)), m.calls, cs, os);
  }

  lemma NothingKeeps()
    ensures Renders([], [], []) && Queued(Conv([], [], 0))
  {
    assert OutputsFollow([]);
  }

  /** Every call and every output is rendered, in order, whatever the messages; and
      without orphans the queue binds them by position. */
  lemma {:induction false} ConvertKeeps(ms: seq<Message>)
    ensures Renders(Items(ms), CallsIn(ms), OutputsIn(ms))
    ensures NoOrphans(ms) ==> Queued(Convert(ms))
  {
    hide Renders, Queued, OutputsFollow, Add;
    if ms == [] {
      NothingKeeps();
    } else {
      var front := ms[..|ms| - 1];
      var m := ms[|ms| - 1];
      ConvertKeeps(front);
      if m.role.Tool? {
        assert CallsIn(ms) == CallsIn(front);
        AddToolKeeps(Convert(front), m, CallsIn(front), OutputsIn(front));
      } else {
        assert OutputsIn(ms) == OutputsIn(front);
        AddSaidKeeps(Convert(front), m, CallsIn(front), OutputsIn(front));
      }
    }
  }

  // ----------------------------------------------------------- the pairing law

  lemma {:induction false} AddCallsExtends(c: Conv, calls: seq<Call>)
    ensures c.items <= AddCalls(c, calls).items
    decreases |calls|
  {
    if calls != [] { AddCallsExtends(AddCall(c, calls[0]), calls[1..]); }
  }

  lemma AddExtends(c: Conv, m: Message)
    ensures c.items <= Add(c, m).items
  {
    if !m.role.Tool? && m.calls != [] {
      AddCallsExtends(if m.content != "" then c.(items := c.items + [Text(m.role, m.content)]) else c, m.calls);
    }
  }

  lemma {:induction false} ItemsPrefix(ms: seq<Message>, n: nat)
    requires n <= |ms|
    ensures Items(ms[..n]) <= Items(ms)
    decreases |ms|
  {
    if n == |ms| {
      assert ms[..n] == ms;
    } else {
      var front := ms[..|ms| - 1];
      ItemsPrefix(front, n);
      assert front[..n] == ms[..n];
      AddExtends(Convert(front), ms[|ms| - 1]);
    }
  }

  lemma {:induction false} SomeOrphan(ms: seq<Message>) returns (n: nat)
    requires !NoOrphans(ms)
    ensures n <= |ms| && |OutputsIn(ms[..n])| > |CallsIn(ms[..n])|
    decreases |ms|
  {
    var front := ms[..|ms| - 1];
    if NoOrphans(front) {
      n := |ms|;
      assert ms[..n] == ms;
    } else {
      n := SomeOrphan(front);
      assert front[..n] == ms[..n];
    }
  }

  lemma OrphanBreaksOrder(ms: seq<Message>)
    requires !NoOrphans(ms)
    ensures !OutputsFollow(Items(ms))
  {
    var n := SomeOrphan(ms);
    ConvertKeeps(ms[..n]);
    ItemsPrefix(ms, n);
    var p := |Items(ms[..n])|;
    assert Items(ms)[..p] == Items(ms[..n]);
    assert |OutputItems(Items(ms)[..p])| > |CallItems(Items(ms)[..p])|;
  }

  /** Positional binding is right exactly on balanced messages: each output then
      carries its own call's id and stands after it. */
  lemma PairedIffBalanced(ms: seq<Message>)
    ensures Paired(Items(ms)) <==> Balanced(ms)
  {
    ConvertKeeps(ms);
    if !NoOrphans(ms) { OrphanBreaksOrder(ms); }
  }

  /** On a balanced list the waiting queue ends empty. */
  lemma QueueEndsEmpty(ms: seq<Message>)
    requires Balanced(ms)
    ensures Convert(ms).pending == []
  {
    ConvertKeeps(ms);
  }

  /** What a reader of the items sees for the k-th call: its name and arguments, and
      under the same id the k-th output. */
  lemma BindsKth(ms: seq<Message>, k: nat)
    requires Balanced(ms) && k < |CallsIn(ms)|
    ensures var items := Items(ms);
            && k < |CallItems(items)| == |OutputItems(items)|
            && CallItems(items)[k].name == CallsIn(ms)[k].name
            && CallItems(items)[k].args == CallsIn(ms)[k].args
            && OutputItems(items)[k] == OutputItem(CallItems(items)[k].callId, OutputsIn(ms)[k])
  {
    PairedIffBalanced(ms);
    ConvertKeeps(ms);
  }

  // ---------------------------------------------------------- text and images

  /** What a message says besides calls and outputs: its text, and all its images. */
  function Says(m: Message): seq<Item> {
    (if m.role.Tool? || m.content == "" then [] else [Text(m.role, m.content)]) + Images(m.images)
  }

  function SaidIn(ms: seq<Message>): seq<Item> {
    if ms == [] then [] else SaidIn(ms[..|ms| - 1]) + Says(ms[|ms| - 1])
  }

  /** An image or some text; an image-only message is led by an empty text item. */
  predicate Visible(x: Item) {
    x.ImageItem? || (x.TextItem? && x.text != "")
  }

  function Shown(items: seq<Item>): seq<Item> {
    if items == [] then []
    else Shown(items[..|items| - 1]) + (if Visible(items[|items| - 1]) then [items[|items| - 1]] else [])
  }

  /** A tool output, or a message with calls, that comes with images. */
  predicate LosesImages(m: Message) {
    m.images != [] && (m.role.Tool? || m.calls != [])
  }

  function LostImages(ms: seq<Message>): nat {
    if ms == [] then 0
    else LostImages(ms[..|ms| - 1]) + (if LosesImages(ms[|ms| - 1]) then |ms[|ms| - 1].images| else 0)
  }

  lemma {:induction false} ShownSnoc(items: seq<Item>, x: Item)
    ensures Shown(items + [x]) == Shown(items) + (if Visible(x) then [x] else [])
  {
    assert (items + [x])[..|items|] == items;
  }

  lemma {:induction false} ShownAppend(items: seq<Item>, tail: seq<Item>)
    requires forall k :: 0 <= k < |tail| ==> Visible(tail[k])
    ensures Shown(items + tail) == Shown(items) + tail
  {
    hide Shown;
    if tail == [] {
      assert items + tail == items;
    } else {
      var last := |tail| - 1;
      ShownAppend(items, tail[..last]);
      ShownSnoc(items + tail[..last], tail[last]);
      assert items + tail == items + tail[..last] + [tail[last]];
      assert tail == tail[..last] + [tail[last]];
    }
  }

  lemma {:induction false} CallsAreNotShown(c: Conv, calls: seq<Call>)
    ensures Shown(AddCalls(c, calls).items) == Shown(c.items)
    decreases |calls|
  {
    hide Shown;
    if calls != [] {
      var d := AddCall(c, calls[0]);
      ShownSnoc(c.items, d.items[|c.items|]);
      CallsAreNotShown(d, calls[1..]);
    }
  }

  lemma ImagesShown(items: seq<Item>, images: seq<string>)
    ensures Shown(items + Images(images)) == Shown(items) + Images(images)
  {
    ShownAppend(items, Images(images));
  }

  lemma TextShown(items: seq<Item>, role: Role, content: string)
    ensures Shown(items + [Text(role, content)]) == Shown(items) + (if content == "" then [] else [Text(role, content)])
  {
    ShownSnoc(items, Text(role, content));
  }

  lemma ProseIsShown(c: Conv, m: Message)
    requires !m.role.Tool?
    ensures Shown(c.items + ProseOf(m)) == Shown(c.items) + (if LosesImages(m) then Says(m)[..|Says(m)| - |m.images|] else Says(m))
  {
    hide Shown, Text;
    var text := Text(m.role, m.content);
    TextShown(c.items, m.role, m.content);
    assert c.items + [] == c.items && Shown(c.items) + [] == Shown(c.items);
    if m.calls == [] && (m.content != "" || m.images != []) {
      assert c.items + ProseOf(m) == (c.items + [text]) + Images(m.images);
      ImagesShown(c.items + [text], m.images);
      hide Images;
      assert Shown(c.items) + Says(m) == Shown(c.items + [text]) + Images(m.images);
    } else if m.calls != [] {
      assert (if LosesImages(m) then Says(m)[..|Says(m)| - |m.images|] else Says(m)) == ProseOf(m);
    }
  }

  lemma AddShows(c: Conv, m: Message)
    ensures Shown(Add(c, m).items) == Shown(c.items) + (if LosesImages(m) then Says(m)[..|Says(m)| - |m.images|] else Says(m))
  {
    if m.role.Tool? {
      ShownSnoc(c.items, Add(c, m).items[|c.items|]);
    } else {
      hide Shown, AddCalls, ProseOf, Add;
      AddIsProseThenCalls(c, m);
      ProseIsShown(c, m);
      CallsAreNotShown(c.(items := c.items + ProseOf(m)), m.calls);
    }
  }

  /** Of all that is said the translation leaves out just the lost images. */
  lemma {:induction false} ShownCounts(ms: seq<Message>)
    ensures |Shown(Items(ms))| + LostImages(ms) == |SaidIn(ms)|
    ensures LostImages(ms) == 0 ==> Shown(Items(ms)) == SaidIn(ms)
    ensures LostImages(ms) == 0 <==> forall k :: 0 <= k < |ms| ==> !LosesImages(ms[k])
  {
    hide Add, Shown, Says;
    if ms == [] {
      ShownNothing();
    } else {
      var m := ms[|ms| - 1];
      ShownCounts(ms[..|ms| - 1]);
      AddShows(Convert(ms[..|ms| - 1]), m);
      SaysItsImages(m);
    }
  }

  lemma ShownNothing()
    ensures Shown([]) == []
  {
  }

  lemma SaysItsImages(m: Message)
    ensures |m.images| <= |Says(m)|
  {
  }

  /** All text and all images come through, in order and nothing repeated, exactly when no
      message with calls and no tool output carries an image. */
  lemma AllShownExactlyWhen(ms: seq<Message>)
    ensures Shown(Items(ms)) == SaidIn(ms) <==> forall k :: 0 <= k < |ms| ==> !LosesImages(ms[k])
  {
    hide LosesImages, Shown, SaidIn;
    ShownCounts(ms);
  }

  /** An image beside a call vanishes. */
  lemma ImageBesideCallVanishes(call: Call, image: string)
    ensures var ms := [Message(Assistant, "", [call], [image])];
            Shown(Items(ms)) == [] && SaidIn(ms) == [ImageItem("data:image/jpeg;base64," + image)]
  {
    var m := Message(Assistant, "", [call], [image]);
    assert [m][..0] == [] && Convert([]) == Conv([], [], 0);
    assert Items([m]) == Add(Conv([], [], 0), m).items && Says(m) == Images([image]);
    AddShows(Conv([], [], 0), m);
    ShownNothing();
  }

  // ------------------------------------------------------ message by message

  lemma {:induction false} AddCallsAppends(c: Conv, calls: seq<Call>)
    ensures var d := AddCalls(c, calls);
            c.items <= d.items && |d.items| == |c.items| + |calls| && c.pending <= d.pending && |d.pending| == |c.pending| + |calls|
    decreases |calls|
  {
    if calls != [] { AddCallsAppends(AddCall(c, calls[0]), calls[1..]); }
  }

  lemma {:induction false} AddCallsAt(c: Conv, calls: seq<Call>, j: nat)
    requires j < |calls|
    ensures var d := AddCalls(c, calls);
            && |d.items| == |c.items| + |calls| && |d.pending| == |c.pending| + |calls|
            && d.items[|c.items| + j] == CallItem(d.pending[|c.pending| + j], calls[j].name, calls[j].args)
            && (calls[j].id != "" ==> d.pending[|c.pending| + j] == calls[j].id)
    decreases |calls|
  {
    AddCallsAppends(c, calls);
    AddCallsAppends(AddCall(c, calls[0]), calls[1..]);
    if j > 0 { AddCallsAt(AddCall(c, calls[0]), calls[1..], j - 1); }
  }

  function Added(ms: seq<Message>, m: Message): seq<Item>
    requires Items(ms) <= Items(ms + [m])
  {
    Items(ms + [m])[|Items(ms)|..]
  }

  lemma OneMore(ms: seq<Message>, m: Message)
    ensures Convert(ms + [m]) == Add(Convert(ms), m)
  {
    assert (ms + [m])[..|ms|] == ms;
  }

  /** A tool output adds one item under the oldest waiting id, or under a new one. */
  lemma OutputAdds(ms: seq<Message>, m: Message)
    requires m.role == Tool
    ensures Items(ms) <= Items(ms + [m])
    ensures var c, d := Convert(ms), Convert(ms + [m]);
            if c.pending != [] then
              Added(ms, m) == [OutputItem(c.pending[0], m.content)] && d.pending == c.pending[1..] && d.callSeq == c.callSeq
            else
              Added(ms, m) == [OutputItem("call_" + Itoa(c.callSeq + 1), m.content)] && d.pending == [] && d.callSeq == c.callSeq + 1
  {
    OneMore(ms, m);
  }

  /** The call's name and arguments, under its own id when it has one. */
  predicate RendersCall(x: Item, call: Call) {
    x.CallItem? && x.name == call.name && x.args == call.args && (call.id != "" ==> x.callId == call.id)
  }

  /** A message with calls adds its text, if any, and its calls in order, each waiting for
      its output under its own id when it has one. */
  lemma CallsAdd(ms: seq<Message>, m: Message)
    requires m.role != Tool && m.calls != []
    ensures Items(ms) <= Items(ms + [m])
    ensures var added := Added(ms, m); var t := if m.content == "" then 0 else 1;
            && |added| == t + |m.calls|
            && (t == 1 ==> added[0] == TextItem(m.role, if m.role == Assistant then "output_text" else "input_text", m.content))
            && (forall j :: 0 <= j < |m.calls| ==> RendersCall(added[t + j], m.calls[j]))
  {
    OneMore(ms, m);
    hide AddCalls, Convert;
    var c := Convert(ms);
    var b := if m.content != "" then c.(items := c.items + [Text(m.role, m.content)]) else c;
    AddCallsAppends(b, m.calls);
    var d := AddCalls(b, m.calls);
    assert Items(ms + [m]) == d.items && b.items <= d.items;
    var t := if m.content == "" then 0 else 1;
    var added := Added(ms, m);
    assert |added| == t + |m.calls|;
    forall j | 0 <= j < |m.calls| ensures RendersCall(added[t + j], m.calls[j]) {
      AddCallsAt(b, m.calls, j);
      assert added[t + j] == d.items[|b.items| + j];
    }
    if t == 1 { assert added[0] == d.items[|c.items|] == b.items[|c.items|] == Text(m.role, m.content); }
  }

  /** Any other message adds its text, in the part its role speaks in, and its images in
      order; an empty one nothing. */
  lemma ProseAdds(ms: seq<Message>, m: Message)
    requires m.role != Tool && m.calls == []
    ensures Items(ms) <= Items(ms + [m])
    ensures var added := Added(ms, m);
            if m.content == "" && m.images == [] then added == []
            else
              && |added| == 1 + |m.images|
              && added[0] == TextItem(m.role, if m.role == Assistant then "output_text" else "input_text", m.content)
              && (forall j :: 0 <= j < |m.images| ==> added[1 + j] == ImageItem("data:image/jpeg;base64," + m.images[j]))
  {
    OneMore(ms, m);
    hide Convert;
  }

  // ------------------------------------------------------------------- call ids

  /** How many of the first k calls came without an id. */
  function Blanks(cs: seq<Call>, k: nat): nat
    requires k <= |cs|
  {
    if k == 0 then 0 else Blanks(cs, k - 1) + (if cs[k - 1].id == "" then 1 else 0)
  }

  function IdOf(cs: seq<Call>, k: nat): string
    requires k < |cs|
  {
    if cs[k].id != "" then cs[k].id else CallId(Blanks(cs, k + 1))
  }

  ghost predicate Numbered(c: Conv, cs: seq<Call>) {
    var items := CallItems(c.items);
    && |items| == |cs| && c.callSeq == Blanks(cs, |cs|)
    && forall k :: 0 <= k < |cs| ==> items[k].callId == IdOf(cs, k)
  }

  lemma {:induction false} BlanksPrefix(cs: seq<Call>, more: seq<Call>, k: nat)
    requires k <= |cs|
    ensures Blanks(cs + more, k) == Blanks(cs, k)
  {
    if k > 0 { BlanksPrefix(cs, more, k - 1); }
  }

  lemma AddCallNumbered(c: Conv, call: Call, cs: seq<Call>)
    requires Numbered(c, cs)
    ensures Numbered(AddCall(c, call), cs + [call])
  {
    hide CallItems, CallId;
    CallItemsSnoc(c.items, AddCall(c, call).items[|c.items|]);
    forall k: nat | k <= |cs| ensures Blanks(cs + [call], k) == Blanks(cs, k) { BlanksPrefix(cs, [call], k); }
  }

  lemma {:induction false} AddCallsNumbered(c: Conv, calls: seq<Call>, cs: seq<Call>)
    requires Numbered(c, cs)
    ensures Numbered(AddCalls(c, calls), cs + calls)
    decreases |calls|
  {
    hide Numbered, AddCall;
    if calls == [] {
      assert cs + calls == cs;
    } else {
      AddCallNumbered(c, calls[0], cs);
      AddCallsNumbered(AddCall(c, calls[0]), calls[1..], cs + [calls[0]]);
      assert cs + [calls[0]] + calls[1..] == cs + calls;
    }
  }

  lemma SameItemsNumbered(c: Conv, d: Conv, cs: seq<Call>)
    requires Numbered(c, cs) && CallItems(d.items) == CallItems(c.items) && d.callSeq == c.callSeq
    ensures Numbered(d, cs)
  {
  }

  lemma AddNumbered(c: Conv, m: Message, cs: seq<Call>)
    requires Numbered(c, cs) && (m.role.Tool? ==> c.pending != [])
    ensures Numbered(Add(c, m), if m.role.Tool? then cs else cs + m.calls)
  {
    hide Numbered;
    if m.role.Tool? {
      CallItemsSnoc(c.items, Add(c, m).items[|c.items|]);
      SameItemsNumbered(c, Add(c, m), cs);
    } else {
      AddIsProseThenCalls(c, m);
      hide Add, ProseOf;
      PlainTail(c.items, ProseOf(m));
      SameItemsNumbered(c, c.(items := c.items + ProseOf(m)), cs);
      AddCallsNumbered(c.(items := c.items + ProseOf(m)), m.calls, cs);
    }
  }

  lemma {:induction false} ConvertNumbered(ms: seq<Message>)
    requires NoOrphans(ms)
    ensures Numbered(Convert(ms), CallsIn(ms))
  {
    if ms != [] {
      hide IdOf, Blanks, OutputsFollow, Add;
      var front, m := ms[..|ms| - 1], ms[|ms| - 1];
      ConvertNumbered(front);
      ConvertKeeps(front);
      AddNumbered(Convert(front), m, CallsIn(front));
      assert CallsIn(ms) == if m.role.Tool? then CallsIn(front) else CallsIn(front) + m.calls;
    }
  }

  /** No two calls that brought an id brought the same one. */
  predicate SuppliedApart(cs: seq<Call>) {
    forall i, j :: 0 <= i < j < |cs| && cs[i].id != "" ==> cs[i].id != cs[j].id
  }

  /** No supplied id is one of those handed out to the calls without. */
  ghost predicate SuppliedFresh(cs: seq<Call>) {
    forall i, n: nat :: 0 <= i < |cs| && cs[i].id != "" && 1 <= n <= Blanks(cs, |cs|) ==> cs[i].id != CallId(n)
  }

  ghost predicate IdsDistinct(items: seq<Item>) {
    forall i, j :: 0 <= i < j < |CallItems(items)| ==> CallItems(items)[i].callId != CallItems(items)[j].callId
  }

  lemma CallIdsDiffer(m: nat, n: nat)
    ensures CallId(m) == CallId(n) <==> m == n
  {
    ValueOfItoa(m);
    ValueOfItoa(n);
    assert CallId(m)[5..] == Itoa(m) && CallId(n)[5..] == Itoa(n);
  }

  lemma {:induction false} BlanksGrow(cs: seq<Call>, j: nat, k: nat)
    requires j <= k <= |cs|
    ensures Blanks(cs, j) <= Blanks(cs, k)
    decreases k
  {
    if j < k { BlanksGrow(cs, j, k - 1); }
  }

  /** The n-th call without an id. */
  lemma {:induction false} NthBlank(cs: seq<Call>, k: nat, n: nat)
    requires k <= |cs| && 1 <= n <= Blanks(cs, k)
    ensures exists j: nat :: j < k && cs[j].id == "" && Blanks(cs, j + 1) == n
  {
    if n <= Blanks(cs, k - 1) {
      NthBlank(cs, k - 1, n);
    } else {
      assert cs[k - 1].id == "" && Blanks(cs, (k - 1) + 1) == n;
    }
  }

  lemma IdsApart(cs: seq<Call>, i: nat, j: nat)
    requires i < j < |cs| && SuppliedApart(cs) && SuppliedFresh(cs)
    ensures IdOf(cs, i) != IdOf(cs, j)
  {
    hide CallId;
    BlanksGrow(cs, i + 1, j);
    BlanksGrow(cs, i + 1, |cs|);
    BlanksGrow(cs, j + 1, |cs|);
    CallIdsDiffer(Blanks(cs, i + 1), Blanks(cs, j + 1));
  }

  ghost predicate IdOfsDistinct(cs: seq<Call>) {
    forall i: nat, j: nat :: i < j < |cs| ==> IdOf(cs, i) != IdOf(cs, j)
  }

  lemma DistinctMeansFresh(cs: seq<Call>, i: nat, n: nat)
    requires IdOfsDistinct(cs) && i < |cs| && cs[i].id != "" && 1 <= n <= Blanks(cs, |cs|)
    ensures cs[i].id != CallId(n)
  {
    hide CallId;
    NthBlank(cs, |cs|, n);
    var j: nat :| j < |cs| && cs[j].id == "" && Blanks(cs, j + 1) == n;
    assert IdOf(cs, j) == CallId(n) && IdOf(cs, i) == cs[i].id;
  }

  lemma DistinctMeansApart(cs: seq<Call>, i: nat, j: nat)
    requires IdOfsDistinct(cs) && i < j < |cs| && cs[i].id != ""
    ensures cs[i].id != cs[j].id
  {
    assert IdOf(cs, i) != IdOf(cs, j);
  }

  /** The ids of the calls are pairwise distinct exactly when the supplied ones are and none
      of them is an id handed out to a call without one. */
  lemma CallIdsDistinctExactlyWhen(ms: seq<Message>)
    requires NoOrphans(ms)
    ensures IdsDistinct(Items(ms)) <==> SuppliedApart(CallsIn(ms)) && SuppliedFresh(CallsIn(ms))
  {
    var cs := CallsIn(ms);
    ConvertNumbered(ms);
    hide CallItems, CallsIn, CallId, Convert, IdOf, Blanks;
    assert IdsDistinct(Items(ms)) <==> IdOfsDistinct(cs);
    if SuppliedApart(cs) && SuppliedFresh(cs) {
      forall i: nat, j: nat | i < j < |cs| ensures IdOf(cs, i) != IdOf(cs, j) { IdsApart(cs, i, j); }
    }
    if IdOfsDistinct(cs) {
      forall i: nat, j: nat | i < j < |cs| && cs[i].id != "" ensures cs[i].id != cs[j].id { DistinctMeansApart(cs, i, j); }
      forall i: nat, n: nat | i < |cs| && cs[i].id != "" && 1 <= n <= Blanks(cs, |cs|) ensures cs[i].id != CallId(n) {
        DistinctMeansFresh(cs, i, n);
      }
    }
  }

  // --------------------------------------------------------------- the method

  /** The translation loop itself. */
  method InputItems(messages: seq<Message>) returns (items: seq<Item>)
    ensures items == Items(messages)
    ensures Balanced(messages) ==> Paired(items)
  {
    PairedIffBalanced(messages);
    items := [];
    var pending: seq<string> := [];
    var callSeq := 0;
    for n := 0 to |messages|
      invariant Conv(items, pending, callSeq) == Convert(messages[..n])
    {
      var m := messages[n];
      assert messages[..n + 1][..n] == messages[..n];
      if m.role.Tool? {
        var callId := "";
        if |pending| > 0 {
          callId, pending := pending[0], pending[1..];
        } else {
          callSeq := callSeq + 1;
          callId := CallId(callSeq);
        }
        items := items + [OutputItem(callId, m.content)];
      } else if |m.calls| > 0 {
        if m.content != "" { items := items + [Text(m.role, m.content)]; }
        items, pending, callSeq := AppendCalls(items, pending, callSeq, m.calls);
      } else if m.content != "" || |m.images| > 0 {
        items := items + [Text(m.role, m.content)];
        items := AppendImages(items, m.images);
      }
    }
    assert messages[..|messages|] == messages;
  }

  method AppendCalls(items0: seq<Item>, pending0: seq<string>, callSeq0: nat, calls: seq<Call>)
    returns (items: seq<Item>, pending: seq<string>, callSeq: nat)
    ensures Conv(items, pending, callSeq) == AddCalls(Conv(items0, pending0, callSeq0), calls)
  {
    items, pending, callSeq := items0, pending0, callSeq0;
    ghost var done := AddCalls(Conv(items, pending, callSeq), calls);
    assert calls[0..] == calls;
    for j := 0 to |calls|
      invariant AddCalls(Conv(items, pending, callSeq), calls[j..]) == done
    {
      var tc := calls[j];
      var id := tc.id;
      assert calls[j..][1..] == calls[j + 1..];
      if id == "" {
        callSeq := callSeq + 1;
        id := CallId(callSeq);
      }
      pending := pending + [id];
      items := items + [CallItem(id, tc.name, tc.args)];
    }
  }

  method AppendImages(items0: seq<Item>, images: seq<string>) returns (items: seq<Item>)
    ensures items == items0 + Images(images)
  {
    items := items0;
    for j := 0 to |images|
      invariant items == items0 + Images(images)[..j]
    {
      items := items + [ImageItem("data:image/jpeg;base64," + images[j])];
    }
  }
}
