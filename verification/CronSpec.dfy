/** The schedule picker's cron spec: printed by the server, read back and previewed by the
    console. */
module CronSpec {
  import opened Common
  import opened Decimal

  // --------------------------------------------------------------------- text

  predicate BothSpace(c: char) {
    || c == ' ' || '\t' <= c <= '\r' || c == '\U{00A0}' || c == '\U{1680}' || '\U{2000}' <= c <= '\U{200A}'
    || c == '\U{2028}' || c == '\U{2029}' || c == '\U{202F}' || c == '\U{205F}' || c == '\U{3000}'
  }

  /** White space to strings.TrimSpace. */
  predicate GoSpace(c: char) {
    BothSpace(c) || c == '\U{0085}'
  }

  /** White space to trim and to \s. */
  predicate JsSpace(c: char) {
    BothSpace(c) || c == '\U{FEFF}'
  }

  /** By code point. */
  lemma SpacesMean(c: char)
    ensures GoSpace(c) <==> (JsSpace(c) && c as int != 0xFEFF) || c as int == 0x85
    ensures JsSpace(c) <==>
            || 9 <= c as int <= 13 || c as int in {0x20, 0xA0, 0x1680, 0x2028, 0x2029, 0x202F, 0x205F, 0x3000, 0xFEFF}
            || 0x2000 <= c as int <= 0x200A
  {
  }

  function TrimLeft(s: string, ws: char -> bool): (t: string)
    ensures t == "" || !ws(t[0])
    ensures |t| <= |s|
  {
    if s != "" && ws(s[0]) then TrimLeft(s[1..], ws) else s
  }

  function TrimRight(s: string, ws: char -> bool): string {
    if s != "" && ws(s[|s| - 1]) then TrimRight(s[..|s| - 1], ws) else s
  }

  function Trim(s: string, ws: char -> bool): string {
    TrimRight(TrimLeft(s, ws), ws)
  }

  /** Split at every separator; `cur` is the part being read. */
  function SplitOn(s: string, sep: char, cur: string): seq<string> {
    if s == "" then [cur]
    else if s[0] == sep then [cur] + SplitOn(s[1..], sep, "")
    else SplitOn(s[1..], sep, cur + [s[0]])
  }

  /** Split at every run of white space. */
  function SplitRuns(s: string, cur: string): seq<string>
    decreases |s|
  {
    if s == "" then [cur]
    else if JsSpace(s[0]) then [cur] + SplitRuns(TrimLeft(s[1..], JsSpace), "")
    else SplitRuns(s[1..], cur + [s[0]])
  }

  function Join(parts: seq<string>): string {
    if parts == [] then "" else if |parts| == 1 then parts[0] else parts[0] + "," + Join(parts[1..])
  }

  predicate Numeric(s: string) {
    s != "" && AllDigits(s)
  }

  /** strconv.Atoi, whose overflow errors no caller here can tell from a range error. */
  function Atoi(s: string): Option<int> {
    var signed := s != "" && (s[0] == '-' || s[0] == '+');
    var digits := if signed then s[1..] else s;
    if !Numeric(digits) then None
    else
      var v: int := Value(digits);
      Some(if s[0] == '-' then -v else v)
  }

  function Pad2(s: string): string {
    if |s| >= 2 then s else seq(2 - |s|, _ => '0') + s
  }

  // ------------------------------------------------------------- the server side

  datatype Error = BadTime | BadHour | BadMinute | NoDays | BadDay(day: int)

  datatype Result<T> = Ok(value: T) | Err(error: Error)

  datatype Clock = Clock(hour: nat, min: nat)

  function ParseTime(s: string): Result<Clock> {
    var parts := SplitOn(Trim(s, GoSpace), ':', "");
    if |parts| != 2 then Err(BadTime)
    else
      var hour, min := Atoi(parts[0]), Atoi(parts[1]);
      if hour.None? || hour.value < 0 || hour.value > 23 then Err(BadHour)
      else if min.None? || min.value < 0 || min.value > 59 then Err(BadMinute)
      else Ok(Clock(hour.value, min.value))
  }

  predicate ValidDay(d: int) {
    0 <= d <= 6
  }

  /** The members of xs below n, ascending, each once. */
  function Ascending(xs: seq<int>, n: nat): seq<int> {
    if n == 0 then [] else Ascending(xs, n - 1) + (if n - 1 in xs then [n - 1] else [])
  }

  function Numerals(days: seq<int>): seq<string>
    requires forall k :: 0 <= k < |days| ==> days[k] >= 0
  {
    seq(|days|, k requires 0 <= k < |days| => Itoa(days[k]))
  }

  function Dow(days: seq<int>): string
    requires forall k :: 0 <= k < |days| ==> days[k] >= 0
  {
    if |days| < 7 then Join(Numerals(days)) else "*"
  }

  function Spec(t: Clock, dow: string): string {
    Itoa(t.min) + " " + Itoa(t.hour) + " * * " + dow
  }

  /** The first day out of range. */
  function FirstBad(days: seq<int>): Option<int> {
    if days == [] then None else if !ValidDay(days[0]) then Some(days[0]) else FirstBad(days[1..])
  }

  function Built(days: seq<int>, time: string): Result<string> {
    var t := ParseTime(time);
    if t.Err? then Err(t.error)
    else if days == [] then Err(NoDays)
    else if FirstBad(days).Some? then Err(BadDay(FirstBad(days).value))
    else
      AscendingMeans(days, 7);
      Ok(Spec(t.value, Dow(Ascending(days, 7))))
  }

  predicate Strict(xs: seq<int>) {
    forall i, j :: 0 <= i < j < |xs| ==> xs[i] < xs[j]
  }

  /** The day list is strictly increasing and has just the days asked for. */
  lemma {:induction false} AscendingMeans(xs: seq<int>, n: nat)
    ensures Strict(Ascending(xs, n))
    ensures forall d :: d in Ascending(xs, n) <==> d in xs && 0 <= d < n
    ensures forall k :: 0 <= k < |Ascending(xs, n)| ==> 0 <= Ascending(xs, n)[k] < n
    ensures |Ascending(xs, n)| <= n
  {
    if n > 0 {
      AscendingMeans(xs, n - 1);
      var a := Ascending(xs, n - 1);
      assert forall k :: 0 <= k < |a| ==> a[k] in a;
    }
  }

  lemma FirstIsMember(a: seq<int>)
    ensures a != [] ==> a[0] in a
  {
  }

  /** A strictly increasing list is determined by its members. */
  lemma {:induction false} StrictIsAscending(a: seq<int>, xs: seq<int>, n: nat)
    requires Strict(a) && forall d :: d in a <==> d in xs && 0 <= d < n
    ensures a == Ascending(xs, n)
  {
    if n == 0 {
      FirstIsMember(a);
    } else if n - 1 in xs {
      assert n - 1 in a;
      var last := |a| - 1;
      assert a[last] == n - 1 by {
        var k :| 0 <= k < |a| && a[k] == n - 1;
        assert a[last] in a;
      }
      assert forall d :: d in a[..last] <==> d in a && d != n - 1;
      StrictIsAscending(a[..last], xs, n - 1);
    } else {
      StrictIsAscending(a, xs, n - 1);
    }
  }

  // ------------------------------------------------------------ the console side

  datatype Timing = Timing(days: seq<int>, time: string)

  function DayOf(part: string): Option<int> {
    if Numeric(part) then Some(Value(part) % 7) else None
  }

  function DaysOf(parts: seq<string>): Option<seq<int>> {
    if parts == [] then Some([])
    else
      var d, rest := DayOf(parts[0]), DaysOf(parts[1..]);
      if d.None? || rest.None? then None else Some([d.value] + rest.value)
  }

  const WEEK: seq<int> := [0, 1, 2, 3, 4, 5, 6]

  function Fields(spec: string): seq<string> {
    SplitRuns(Trim(spec, JsSpace), "")
  }

  function Parsed(spec: string): Option<Timing> {
    var p := Fields(spec);
    if |p| != 5 then None
    else if !Numeric(p[0]) || !Numeric(p[1]) then None
    else if p[2] != "*" || p[3] != "*" then None
    else
      var time := Pad2(p[1]) + ":" + Pad2(p[0]);
      if p[4] == "*" then Some(Timing(WEEK, time))
      else
        var days := DaysOf(SplitOn(p[4], ',', ""));
        if days.None? then None else Some(Timing(days.value, time))
  }

  // ----------------------------------------------------------- taking text apart

  lemma {:induction false} SplitHead(w: string, sep: char, rest: string, cur: string)
    requires sep !in w
    ensures SplitOn(w + [sep] + rest, sep, cur) == [cur + w] + SplitOn(rest, sep, "")
    decreases |w|
  {
    var s := w + [sep] + rest;
    if w == "" {
      assert s[1..] == rest && cur + w == cur;
    } else {
      assert s[1..] == w[1..] + [sep] + rest;
      SplitHead(w[1..], sep, rest, cur + [w[0]]);
      assert cur + [w[0]] + w[1..] == cur + w;
    }
  }

  lemma {:induction false} SplitWhole(w: string, sep: char, cur: string)
    requires sep !in w
    ensures SplitOn(w, sep, cur) == [cur + w]
    decreases |w|
  {
    if w == "" {
      assert cur + w == cur;
    } else {
      SplitWhole(w[1..], sep, cur + [w[0]]);
      assert cur + [w[0]] + w[1..] == cur + w;
    }
  }

  lemma {:induction false} SplitJoin(parts: seq<string>)
    requires parts != [] && forall k :: 0 <= k < |parts| ==> ',' !in parts[k]
    ensures SplitOn(Join(parts), ',', "") == parts
  {
    if |parts| == 1 {
      SplitWhole(parts[0], ',', "");
      assert "" + parts[0] == parts[0];
    } else {
      SplitJoin(parts[1..]);
      SplitHead(parts[0], ',', Join(parts[1..]), "");
      assert "" + parts[0] == parts[0];
      assert parts[0] + "," + Join(parts[1..]) == parts[0] + [','] + Join(parts[1..]);
    }
  }

  predicate Solid(w: string) {
    w != "" && forall k :: 0 <= k < |w| ==> !JsSpace(w[k]) && !GoSpace(w[k])
  }

  lemma {:induction false} RunHead(w: string, rest: string, cur: string)
    requires (forall k :: 0 <= k < |w| ==> !JsSpace(w[k])) && rest != "" && !JsSpace(rest[0])
    ensures SplitRuns(w + " " + rest, cur) == [cur + w] + SplitRuns(rest, "")
    decreases |w|
  {
    var s := w + " " + rest;
    if w == "" {
      assert s[1..] == rest && cur + w == cur;
    } else {
      assert s[1..] == w[1..] + " " + rest;
      RunHead(w[1..], rest, cur + [w[0]]);
      assert cur + [w[0]] + w[1..] == cur + w;
    }
  }

  lemma {:induction false} RunWhole(w: string, cur: string)
    requires forall k :: 0 <= k < |w| ==> !JsSpace(w[k])
    ensures SplitRuns(w, cur) == [cur + w]
    decreases |w|
  {
    if w == "" {
      assert cur + w == cur;
    } else {
      RunWhole(w[1..], cur + [w[0]]);
      assert cur + [w[0]] + w[1..] == cur + w;
    }
  }

  lemma TrimStays(s: string)
    requires s != "" && !JsSpace(s[0]) && !JsSpace(s[|s| - 1])
    ensures Trim(s, JsSpace) == s
  {
  }

  lemma {:induction false} RunField(w: string, rest: string)
    requires Solid(w) && rest != "" && !JsSpace(rest[0])
    ensures SplitRuns(w + " " + rest, "") == [w] + SplitRuns(rest, "")
  {
    RunHead(w, rest, "");
    assert "" + w == w;
  }

  lemma FiveFields(a: string, b: string, e: string)
    requires Solid(a) && Solid(b) && Solid(e)
    ensures SplitRuns(Trim(a + " " + b + " * * " + e, JsSpace), "") == [a, b, "*", "*", e]
  {
    hide SplitRuns, Trim;
    var s4 := "*" + " " + e;
    var s3 := "*" + " " + s4;
    var s2 := b + " " + s3;
    var s1 := a + " " + s2;
    assert s1 == a + " " + b + " * * " + e;
    TrimStays(s1);
    RunField(a, s2);
    RunField(b, s3);
    RunField("*", s4);
    RunField("*", e);
    RunWhole(e, "");
    assert "" + e == e;
    assert SplitRuns(s1, "") == [a] + ([b] + (["*"] + (["*"] + [e])));
  }

  lemma NumericIsSolid(w: string)
    requires Numeric(w)
    ensures Solid(w) && ',' !in w && ':' !in w && w != "*"
  {
    assert forall k :: 0 <= k < |w| ==> IsDigit(w[k]);
    assert IsDigit(w[0]);
  }

  lemma {:induction false} JoinIsSolid(parts: seq<string>)
    requires parts != [] && forall k :: 0 <= k < |parts| ==> Numeric(parts[k])
    ensures Solid(Join(parts)) && IsDigit(Join(parts)[0])
  {
    NumericIsSolid(parts[0]);
    if |parts| > 1 { JoinIsSolid(parts[1..]); }
  }

  lemma {:induction false} DaysOfNumerals(days: seq<int>)
    requires forall k :: 0 <= k < |days| ==> 0 <= days[k] < 7
    ensures DaysOf(Numerals(days)) == Some(days)
  {
    if days != [] {
      ValueOfItoa(days[0]);
      assert Numerals(days)[1..] == Numerals(days[1..]);
      DaysOfNumerals(days[1..]);
      assert days == [days[0]] + days[1..];
    }
  }

  // ------------------------------------------------------------------ round trip

  function Shown(t: Clock): string {
    Pad2(Itoa(t.hour)) + ":" + Pad2(Itoa(t.min))
  }

  lemma {:induction false} FullWeek(xs: seq<int>, n: nat)
    requires n <= 7
    ensures |Ascending(xs, n)| == n ==> Ascending(xs, n) == WEEK[..n]
  {
    if n > 0 {
      AscendingMeans(xs, n - 1);
      FullWeek(xs, n - 1);
      assert WEEK[..n] == WEEK[..n - 1] + [n - 1];
    }
  }

  lemma ListReadsBack(t: Clock, ds: seq<int>)
    requires ds != [] && |ds| < 7 && forall k :: 0 <= k < |ds| ==> 0 <= ds[k] < 7
    ensures Parsed(Spec(t, Dow(ds))) == Some(Timing(ds, Shown(t)))
  {
    hide Trim, SplitRuns, SplitOn, Join, Solid, Value, Itoa;
    var a, b, parts := Itoa(t.min), Itoa(t.hour), Numerals(ds);
    NumericIsSolid(a);
    NumericIsSolid(b);
    forall k | 0 <= k < |parts| ensures ',' !in parts[k] { NumericIsSolid(parts[k]); }
    JoinIsSolid(parts);
    FiveFields(a, b, Join(parts));
    SplitJoin(parts);
    DaysOfNumerals(ds);
  }

  lemma WeekReadsBack(t: Clock)
    ensures Parsed(Spec(t, "*")) == Some(Timing(WEEK, Shown(t)))
  {
    hide Trim, SplitRuns, SplitOn, Value, Itoa;
    var a, b := Itoa(t.min), Itoa(t.hour);
    NumericIsSolid(a);
    NumericIsSolid(b);
    FiveFields(a, b, "*");
  }

  lemma DaysStay(days: seq<int>)
    requires days != [] && FirstBad(days).None?
    ensures Ascending(days, 7) != [] && |Ascending(days, 7)| <= 7
    ensures forall k :: 0 <= k < |Ascending(days, 7)| ==> 0 <= Ascending(days, 7)[k] < 7
    ensures |Ascending(days, 7)| == 7 ==> Ascending(days, 7) == WEEK
  {
    AscendingMeans(days, 7);
    assert days[0] in Ascending(days, 7);
    FullWeek(days, 7);
    assert WEEK[..7] == WEEK;
  }

  lemma {:induction false} DowReadsBack(t: Clock, days: seq<int>)
    requires days != [] && FirstBad(days).None?
    ensures forall k :: 0 <= k < |Ascending(days, 7)| ==> Ascending(days, 7)[k] >= 0
    ensures Parsed(Spec(t, Dow(Ascending(days, 7)))) == Some(Timing(Ascending(days, 7), Shown(t)))
  {
    hide Parsed, Spec, Shown;
    DaysStay(days);
    if |Ascending(days, 7)| < 7 { ListReadsBack(t, Ascending(days, 7)); } else { WeekReadsBack(t); }
  }

  /** The console reads back the sorted duplicate-free days and the time the server parsed,
      written out in full. */
  lemma {:induction false} PrintedSpecReadsBack(days: seq<int>, time: string)
    requires Built(days, time).Ok?
    ensures Parsed(Built(days, time).value) == Some(Timing(Ascending(days, 7), Shown(ParseTime(time).value)))
  {
    DowReadsBack(ParseTime(time).value, days);
  }

  lemma {:induction false} LeadingZero(s: string)
    requires AllDigits(s)
    ensures AllDigits("0" + s) && Value("0" + s) == Value(s)
  {
    var z := "0" + s;
    if s == "" {
      assert z[..0] == "";
    } else {
      LeadingZero(s[..|s| - 1]);
      assert z[..|z| - 1] == "0" + s[..|s| - 1];
    }
  }

  lemma PaddedValue(s: string)
    requires Numeric(s)
    ensures Numeric(Pad2(s)) && Value(Pad2(s)) == Value(s)
  {
    if |s| < 2 {
      assert Pad2(s) == "0" + s;
      LeadingZero(s);
    }
  }

  /** Two numerals around a colon are read as themselves. */
  lemma {:induction false} ReadsClock(a: string, b: string)
    requires Numeric(a) && Numeric(b)
    ensures ParseTime(a + ":" + b) ==
            if Value(a) > 23 then Err(BadHour)
            else if Value(b) > 59 then Err(BadMinute)
            else Ok(Clock(Value(a), Value(b)))
  {
    hide SplitOn, Value;
    NumericIsSolid(a);
    NumericIsSolid(b);
    var s := a + ":" + b;
    assert Trim(s, GoSpace) == s;
    SplitHead(a, ':', b, "");
    SplitWhole(b, ':', "");
    assert a + [':'] + b == s && "" + a == a && "" + b == b;
  }

  lemma ShownIsRead(t: Clock)
    requires t.hour <= 23 && t.min <= 59
    ensures ParseTime(Shown(t)) == Ok(t)
  {
    PaddedValue(Itoa(t.hour));
    PaddedValue(Itoa(t.min));
    ValueOfItoa(t.hour);
    ValueOfItoa(t.min);
    ReadsClock(Pad2(Itoa(t.hour)), Pad2(Itoa(t.min)));
  }

  /** Saving what the picker shows, unchanged, stores the same spec. */
  lemma {:induction false} ReprintingKeepsSpec(days: seq<int>, time: string)
    requires Built(days, time).Ok?
    ensures Parsed(Built(days, time).value).Some?
    ensures var p := Parsed(Built(days, time).value).value; Built(p.days, p.time) == Built(days, time)
  {
    hide Parsed;
    PrintedSpecReadsBack(days, time);
    var t := ParseTime(time).value;
    ShownIsRead(t);
    var ds := Ascending(days, 7);
    AscendingMeans(days, 7);
    assert ds != [] by { assert days[0] in days; assert days[0] in ds; }
    AscendingMeans(ds, 7);
    StrictIsAscending(ds, ds, 7);
    AllValid(ds);
  }

  lemma {:induction false} AllValid(days: seq<int>)
    ensures FirstBad(days).None? <==> forall k :: 0 <= k < |days| ==> ValidDay(days[k])
    ensures FirstBad(days).Some? ==> FirstBad(days).value in days && !ValidDay(FirstBad(days).value)
  {
    if days != [] { AllValid(days[1..]); }
  }

  // ------------------------------------------------ text, numbers and what is read

  lemma {:induction false} TrimLeftMeans(s: string, ws: char -> bool)
    ensures var t := TrimLeft(s, ws);
            |t| <= |s| && t == s[|s| - |t|..] && forall k :: 0 <= k < |s| - |t| ==> ws(s[k])
  {
    if s != "" && ws(s[0]) { TrimLeftMeans(s[1..], ws); }
  }

  lemma {:induction false} TrimRightMeans(s: string, ws: char -> bool)
    ensures var t := TrimRight(s, ws);
            && |t| <= |s| && t == s[..|t|] && (forall k :: |t| <= k < |s| ==> ws(s[k]))
            && (t == "" || !ws(t[|t| - 1]))
  {
    if s != "" && ws(s[|s| - 1]) { TrimRightMeans(s[..|s| - 1], ws); }
  }

  /** Trimming takes off the blanks at both ends and nothing else. */
  lemma TrimMeans(s: string, ws: char -> bool) returns (lo: nat, hi: nat)
    ensures lo <= hi <= |s| && Trim(s, ws) == s[lo..hi]
    ensures forall k :: 0 <= k < lo || hi <= k < |s| ==> ws(s[k])
    ensures Trim(s, ws) == "" || (!ws(s[lo]) && !ws(s[hi - 1]))
  {
    TrimLeftMeans(s, ws);
    TrimRightMeans(TrimLeft(s, ws), ws);
    lo := |s| - |TrimLeft(s, ws)|;
    hi := lo + |Trim(s, ws)|;
  }

  /** The server's numbers: digits, with a sign or without. */
  lemma AtoiMeans(s: string)
    requires Numeric(s)
    ensures Atoi(s) == Some(Value(s)) && Atoi("+" + s) == Some(Value(s)) && Atoi("-" + s) == Some(-(Value(s) as int))
  {
    hide Value;
    assert IsDigit(s[0]) && ("+" + s)[1..] == s && ("-" + s)[1..] == s;
  }

  /** And nothing else is one. */
  lemma AtoiFailsExactlyWhen(s: string)
    ensures Atoi(s).None? <==> !Numeric(s) && !(s != "" && (s[0] == '-' || s[0] == '+') && Numeric(s[1..]))
  {
    hide Value;
    if Numeric(s) { assert IsDigit(s[0]); }
  }

  /** The console's: blanks in front are skipped and anything after the digits is ignored. */
  lemma ParseIntMeans(s: string, rest: string)
    requires Numeric(s) && (rest == "" || !IsDigit(rest[0]))
    ensures ParseInt(s + rest) == Some(Value(s)) && ParseInt(" " + (s + rest)) == Some(Value(s))
    ensures ParseInt("+" + (s + rest)) == Some(Value(s)) && ParseInt("-" + (s + rest)) == Some(-(Value(s) as int))
  {
    hide Value, LeadingDigits, TrimLeft;
    DigitsInFront(s, rest);
    var t := s + rest;
    assert IsDigit(s[0]) && t[0] == s[0];
    assert ("+" + t)[1..] == t && ("-" + t)[1..] == t;
    NothingToTrim(t);
    NothingToTrim("+" + t);
    NothingToTrim("-" + t);
    BlankTrimmed(t);
  }

  lemma NothingToTrim(t: string)
    requires t != "" && !JsSpace(t[0])
    ensures TrimLeft(t, JsSpace) == t
  {
  }

  lemma BlankTrimmed(t: string)
    requires t != "" && !JsSpace(t[0])
    ensures TrimLeft(" " + t, JsSpace) == t
  {
    assert (" " + t)[1..] == t;
  }

  lemma {:induction false} DigitsInFront(s: string, rest: string)
    requires AllDigits(s) && (rest == "" || !IsDigit(rest[0]))
    ensures LeadingDigits(s + rest) == s
  {
    if s == "" {
      assert s + rest == rest;
    } else {
      assert (s + rest)[1..] == s[1..] + rest;
      DigitsInFront(s[1..], rest);
    }
  }

  /** What the preview prints of a number, and of none. */
  lemma ShowsMeans(n: nat)
    ensures Shows(None) == "NaN" && Shows(Some(n)) == Itoa(n)
    ensures n > 0 ==> Shows(Some(-(n as int))) == "-" + Itoa(n)
  {
  }

  /** The preview asks for a day or a time exactly when one is missing. */
  lemma PreviewAsksExactlyWhen(days: seq<int>, time: string)
    requires Pills(days)
    ensures Preview(days, time).None? <==> days == [] || time == ""
  {
  }

  /** The console takes a spec into its picker exactly when it has five fields, numerals for
      minute and hour, stars for day and month, and a star or numerals for the days. */
  lemma AcceptedExactlyWhen(spec: string)
    ensures var f := Fields(spec);
            Parsed(spec).Some? <==>
            && |f| == 5 && Numeric(f[0]) && Numeric(f[1]) && f[2] == "*" && f[3] == "*"
            && (f[4] == "*" || forall part :: part in SplitOn(f[4], ',', "") ==> Numeric(part))
  {
    hide SplitRuns, Trim, SplitOn, Pad2;
    var f := Fields(spec);
    if |f| == 5 {
      var parts := SplitOn(f[4], ',', "");
      DaysOfMeans(parts);
      if forall part :: part in parts ==> Numeric(part) { DaysAreRead(parts); }
    }
  }

  // ------------------------------------------------------- specs typed by hand

  lemma {:induction false} DaysOfMeans(parts: seq<string>)
    ensures DaysOf(parts).Some? ==>
              && |DaysOf(parts).value| == |parts|
              && forall k :: 0 <= k < |parts| ==> Numeric(parts[k]) && DaysOf(parts).value[k] == Value(parts[k]) % 7
  {
    if parts != [] { DaysOfMeans(parts[1..]); }
  }

  lemma {:induction false} SplitIsJoined(s: string, cur: string)
    ensures SplitOn(s, ',', cur) != [] && Join(SplitOn(s, ',', cur)) == cur + s
    decreases |s|
  {
    if s == "" {
      assert cur + s == cur;
    } else if s[0] == ',' {
      SplitIsJoined(s[1..], "");
      assert SplitOn(s, ',', cur)[1..] == SplitOn(s[1..], ',', "");
      assert cur + "," + ("" + s[1..]) == cur + s;
    } else {
      SplitIsJoined(s[1..], cur + [s[0]]);
      assert cur + [s[0]] + s[1..] == cur + s;
    }
  }

  lemma ReadDaysAreDays(spec: string)
    requires Parsed(spec).Some?
    ensures var days := Parsed(spec).value.days; days != [] && forall k :: 0 <= k < |days| ==> ValidDay(days[k])
  {
    hide SplitRuns, Trim, SplitOn, DaysOf, Pad2;
    var f := Fields(spec)[4];
    DaysOfMeans(SplitOn(f, ',', ""));
    SplitIsJoined(f, "");
  }

  /** The console accepts any numerals for minute, hour and days, and counts days modulo
      seven. */
  lemma NumeralsAreRead(a: string, b: string, parts: seq<string>)
    requires Numeric(a) && Numeric(b) && parts != [] && forall k :: 0 <= k < |parts| ==> Numeric(parts[k])
    ensures var read := Parsed(a + " " + b + " * * " + Join(parts));
            && read.Some? && read.value.time == Pad2(b) + ":" + Pad2(a) && |read.value.days| == |parts|
            && (forall k :: 0 <= k < |parts| ==> Numeric(parts[k]) && read.value.days[k] == Value(parts[k]) % 7)
  {
    hide Trim, SplitRuns, SplitOn, Join, Solid, Value, Pad2;
    NumericIsSolid(a);
    NumericIsSolid(b);
    forall k | 0 <= k < |parts| ensures ',' !in parts[k] { NumericIsSolid(parts[k]); }
    JoinIsSolid(parts);
    FiveFields(a, b, Join(parts));
    SplitJoin(parts);
    DaysAreRead(parts);
    DaysOfMeans(parts);
    assert Join(parts) != "*" by { assert IsDigit(Join(parts)[0]); }
  }

  lemma {:induction false} DaysAreRead(parts: seq<string>)
    requires forall k :: 0 <= k < |parts| ==> Numeric(parts[k])
    ensures DaysOf(parts).Some?
  {
    if parts != [] { DaysAreRead(parts[1..]); }
  }

  /** A typed day 7 is Sunday, which is stored as 0. */
  lemma SevenIsSunday()
    ensures Parsed("0 9 * * 7") == Some(Timing([0], "09:00"))
  {
    hide Parsed, Trim, SplitRuns, SplitOn;
    NumeralsAreRead("0", "9", ["7"]);
    DigitValue("7");
    assert "0" + " " + "9" + " * * " + Join(["7"]) == "0 9 * * 7";
    var read := Parsed("0 9 * * 7").value;
    assert read.days == [0];
    assert Pad2("9") == "09" && Pad2("0") == "00";
    assert "09" + ":" + "00" == "09:00";
  }

  /** Saving what the console reads in a typed spec: refused exactly when the hour or the
      minute is out of range, otherwise stored as the server prints it. */
  lemma TypedSpecIsStored(spec: string)
    requires Parsed(spec).Some?
    ensures forall k :: 0 <= k < |Ascending(Parsed(spec).value.days, 7)| ==> Ascending(Parsed(spec).value.days, 7)[k] >= 0
    ensures var f := Fields(spec); var read := Parsed(spec).value;
            Built(read.days, read.time) ==
              if Value(f[1]) > 23 then Err(BadHour)
              else if Value(f[0]) > 59 then Err(BadMinute)
              else Ok(Spec(Clock(Value(f[1]), Value(f[0])), Dow(Ascending(read.days, 7))))
  {
    hide SplitRuns, Trim, SplitOn, DaysOf, Pad2, Value, ParseTime, Dow;
    var f, read := Fields(spec), Parsed(spec).value;
    ReadDaysAreDays(spec);
    AllValid(read.days);
    AscendingMeans(read.days, 7);
    PaddedValue(f[0]);
    PaddedValue(f[1]);
    ReadsClock(Pad2(f[1]), Pad2(f[0]));
  }

  /** A day list as the server prints it: a star, or fewer than seven single digits up to
      6, ascending. */
  predicate PlainDays(field: string) {
    || field == "*"
    || (var parts := SplitOn(field, ',', "");
        && |parts| < 7
        && (forall k :: 0 <= k < |parts| ==> |parts[k]| == 1 && '0' <= parts[k][0] <= '6')
        && (forall i, j :: 0 <= i < j < |parts| ==> parts[i][0] < parts[j][0]))
  }

  lemma {:induction false} DigitValue(s: string)
    requires |s| == 1 && AllDigits(s)
    ensures Value(s) == s[0] as int - '0' as int && Itoa(Value(s)) == s
  {
    assert s[..0] == "";
    ItoaOfValue(s);
  }

  /** Listed days come back exactly when they are plain. */
  lemma PlainDaysComeBack(field: string, days: seq<int>)
    requires field != "*" && DaysOf(SplitOn(field, ',', "")) == Some(days)
    requires days != [] && forall k :: 0 <= k < |days| ==> ValidDay(days[k])
    requires PlainDays(field)
    ensures forall k :: 0 <= k < |Ascending(days, 7)| ==> Ascending(days, 7)[k] >= 0
    ensures Dow(Ascending(days, 7)) == field
  {
    hide SplitOn, DaysOf, Join, Itoa, Value;
    var parts := SplitOn(field, ',', "");
    DaysOfMeans(parts);
    forall k | 0 <= k < |parts| ensures days[k] == parts[k][0] as int - '0' as int && Itoa(days[k]) == parts[k] {
      DigitValue(parts[k]);
    }
    AscendingMeans(days, 7);
    StrictIsAscending(days, days, 7);
    assert Numerals(days) == parts;
    SplitIsJoined(field, "");
    assert "" + field == field;
  }

  lemma PrintedDaysArePlain(days: seq<int>)
    requires Strict(days) && days != [] && |days| <= 7 && forall k :: 0 <= k < |days| ==> 0 <= days[k] < 7
    ensures PlainDays(Dow(days))
  {
    hide SplitOn, Join, Value;
    if |days| < 7 {
      var parts := Numerals(days);
      forall k | 0 <= k < |parts| ensures ',' !in parts[k] { NumericIsSolid(parts[k]); }
      SplitJoin(parts);
    }
  }

  /** Five fields with single blanks between, numerals without leading zeros and plain
      days. */
  predicate AsPrinted(spec: string) {
    var f := Fields(spec);
    && |f| == 5 && spec == f[0] + " " + f[1] + " * * " + f[4]
    && NoLeadingZero(f[0]) && NoLeadingZero(f[1]) && PlainDays(f[4])
  }

  lemma SpecFields(t: Clock, days: seq<int>)
    requires days != [] && |days| <= 7 && forall k :: 0 <= k < |days| ==> 0 <= days[k] < 7
    ensures Fields(Spec(t, Dow(days))) == [Itoa(t.min), Itoa(t.hour), "*", "*", Dow(days)]
  {
    hide SplitRuns, Trim, Join, Itoa;
    NumericIsSolid(Itoa(t.min));
    NumericIsSolid(Itoa(t.hour));
    if |days| < 7 { JoinIsSolid(Numerals(days)); }
    FiveFields(Itoa(t.min), Itoa(t.hour), Dow(days));
  }

  lemma UnchangedIsAsPrinted(spec: string)
    requires Parsed(spec).Some?
    requires var read := Parsed(spec).value; Built(read.days, read.time) == Ok(spec)
    ensures AsPrinted(spec)
  {
    hide SplitRuns, Trim, SplitOn, DaysOf, Pad2, Value, Itoa, Dow, PlainDays, Built, ParseTime;
    var f, days := Fields(spec), Ascending(Parsed(spec).value.days, 7);
    var t := Clock(Value(f[1]), Value(f[0]));
    ReadDaysAreDays(spec);
    AllValid(Parsed(spec).value.days);
    DaysStay(Parsed(spec).value.days);
    AscendingMeans(Parsed(spec).value.days, 7);
    TypedSpecIsStored(spec);
    SpecFields(t, days);
    PrintedDaysArePlain(days);
    ItoaHasNoLeadingZero(t.min);
    ItoaHasNoLeadingZero(t.hour);
  }

  lemma AsPrintedIsUnchanged(spec: string)
    requires Parsed(spec).Some? && AsPrinted(spec)
    requires Value(Fields(spec)[1]) <= 23 && Value(Fields(spec)[0]) <= 59
    ensures var read := Parsed(spec).value; Built(read.days, read.time) == Ok(spec)
  {
    hide SplitRuns, Trim, SplitOn, DaysOf, Pad2, Value, Itoa, Dow, PlainDays, Built, ParseTime;
    var f, days := Fields(spec), Parsed(spec).value.days;
    TypedSpecIsStored(spec);
    ReadDaysAreDays(spec);
    ItoaOfValue(f[0]);
    ItoaOfValue(f[1]);
    if f[4] == "*" { WeekComesBack(days); } else { PlainDaysComeBack(f[4], days); }
  }

  lemma WeekComesBack(days: seq<int>)
    requires days == WEEK
    ensures Ascending(days, 7) == WEEK && Dow(WEEK) == "*"
  {
    StrictIsAscending(WEEK, days, 7);
  }

  /** A typed spec the console accepts is stored back unchanged exactly when its time is in
      range and it is written as the server would print it. */
  lemma StoredUnchangedExactlyWhen(spec: string)
    requires Parsed(spec).Some?
    ensures var f, read := Fields(spec), Parsed(spec).value;
            Built(read.days, read.time) == Ok(spec) <==> Value(f[1]) <= 23 && Value(f[0]) <= 59 && AsPrinted(spec)
  {
    hide SplitRuns, Trim, SplitOn, DaysOf, Pad2, Value, Built, AsPrinted, Dow, Ascending;
    var f, read := Fields(spec), Parsed(spec).value;
    TypedSpecIsStored(spec);
    if Built(read.days, read.time) == Ok(spec) { UnchangedIsAsPrinted(spec); }
    if Value(f[1]) <= 23 && Value(f[0]) <= 59 && AsPrinted(spec) { AsPrintedIsUnchanged(spec); }
  }

  predicate ZeroPadded(time: string) {
    |time| == 5 && time[2] == ':' && AllDigits(time[..2]) && AllDigits(time[3..])
  }

  lemma {:induction false} TwoDigitsPadBack(s: string)
    requires |s| == 2 && AllDigits(s)
    ensures Pad2(Itoa(Value(s))) == s
  {
    var a, b := s[0] as int - '0' as int, s[1] as int - '0' as int;
    assert Value(s) == 10 * a + b by {
      assert s[..1][..0] == "" && Value(s[..1]) == a;
    }
    hide Value, Itoa;
    assert s == [s[0], s[1]];
  }

  /** A zero-padded time comes back as it was typed. */
  lemma {:induction false} PaddedTimeComesBack(days: seq<int>, time: string)
    requires ZeroPadded(time) && Built(days, time).Ok?
    ensures Parsed(Built(days, time).value) == Some(Timing(Ascending(days, 7), time))
  {
    hide Parsed, Value, ParseTime;
    PrintedSpecReadsBack(days, time);
    assert time == time[..2] + ":" + time[3..];
    ReadsClock(time[..2], time[3..]);
    TwoDigitsPadBack(time[..2]);
    TwoDigitsPadBack(time[3..]);
  }

  // ------------------------------------------------------------------ the preview

  function Insert(x: int, xs: seq<int>): seq<int> {
    if xs == [] || x <= xs[0] then [x] + xs else [xs[0]] + Insert(x, xs[1..])
  }

  /** sort.Ints, and sort by difference. */
  function Sorted(xs: seq<int>): seq<int> {
    if xs == [] then [] else Insert(xs[0], Sorted(xs[1..]))
  }

  predicate Distinct(xs: seq<int>) {
    forall i, j :: 0 <= i < j < |xs| ==> xs[i] != xs[j]
  }

  lemma {:induction false} InsertKeepsMembers(x: int, xs: seq<int>)
    ensures |Insert(x, xs)| == |xs| + 1
    ensures forall d :: d in Insert(x, xs) <==> d == x || d in xs
  {
    if xs != [] && x > xs[0] {
      InsertKeepsMembers(x, xs[1..]);
      assert xs == [xs[0]] + xs[1..];
    }
  }

  lemma {:induction false} InsertKeepsOrder(x: int, xs: seq<int>)
    requires Strict(xs) && x !in xs
    ensures Strict(Insert(x, xs))
  {
    if xs != [] && x > xs[0] {
      InsertKeepsOrder(x, xs[1..]);
      InsertKeepsMembers(x, xs[1..]);
      var r := Insert(x, xs[1..]);
      forall k | 0 <= k < |r| ensures xs[0] < r[k] {
        assert r[k] in r;
        assert r[k] == x || r[k] in xs[1..];
      }
    }
  }

  lemma {:induction false} SortedMeans(xs: seq<int>)
    ensures |Sorted(xs)| == |xs| && (forall d :: d in Sorted(xs) <==> d in xs)
    ensures Distinct(xs) ==> Strict(Sorted(xs))
  {
    if xs != [] {
      SortedMeans(xs[1..]);
      InsertKeepsMembers(xs[0], Sorted(xs[1..]));
      assert xs == [xs[0]] + xs[1..];
      if Distinct(xs) { InsertKeepsOrder(xs[0], Sorted(xs[1..])); }
    }
  }

  /** parseInt: leading white space, a sign, the longest run of digits; None is NaN. */
  function ParseInt(s: string): Option<int> {
    var t := TrimLeft(s, JsSpace);
    var signed := t != "" && (t[0] == '-' || t[0] == '+');
    var digits := LeadingDigits(if signed then t[1..] else t);
    if digits == "" then None
    else
      var v: int := Value(digits);
      Some(if t[0] == '-' then -v else v)
  }

  function LeadingDigits(s: string): (t: string)
    ensures AllDigits(t)
  {
    if s == "" || !IsDigit(s[0]) then "" else [s[0]] + LeadingDigits(s[1..])
  }

  function Shows(v: Option<int>): string {
    if v.None? then "NaN" else if v.value < 0 then "-" + Itoa(-v.value) else Itoa(v.value)
  }

  predicate Pills(days: seq<int>) {
    forall k :: 0 <= k < |days| ==> ValidDay(days[k])
  }

  function PreviewDow(days: seq<int>): string
    requires Pills(days)
  {
    SortedMeans(days);
    assert forall k :: 0 <= k < |Sorted(days)| ==> Sorted(days)[k] in Sorted(days);
    if |days| == 7 then "*" else Join(Numerals(Sorted(days)))
  }

  /** The spec behind the preview line; None while it asks for a day or a time. */
  function Preview(days: seq<int>, time: string): Option<string>
    requires Pills(days)
  {
    if days == [] || time == "" then None
    else
      var hhmm := SplitOn(time, ':', "");
      Some(Shows(if |hhmm| > 1 then ParseInt(hhmm[1]) else None) + " " + Shows(if |hhmm| > 0 then ParseInt(hhmm[0]) else None)
           + " * * " + PreviewDow(days))
  }

  lemma {:induction false} LeadingDigitsOfNumeral(s: string)
    requires AllDigits(s)
    ensures LeadingDigits(s) == s
  {
    if s != "" { LeadingDigitsOfNumeral(s[1..]); }
  }

  lemma {:induction false} ParseIntOfNumeral(s: string)
    requires Numeric(s)
    ensures ParseInt(s) == Some(Value(s))
  {
    NumericIsSolid(s);
    assert IsDigit(s[0]) && TrimLeft(s, JsSpace) == s;
    LeadingDigitsOfNumeral(s);
  }

  lemma PreviewOfClock(days: seq<int>, a: string, b: string)
    requires Pills(days) && days != [] && Numeric(a) && Numeric(b)
    ensures Preview(days, a + ":" + b) == Some(Spec(Clock(Value(a), Value(b)), PreviewDow(days)))
  {
    hide SplitOn, Value, PreviewDow;
    NumericIsSolid(a);
    NumericIsSolid(b);
    SplitHead(a, ':', b, "");
    SplitWhole(b, ':', "");
    assert a + [':'] + b == a + ":" + b && "" + a == a && "" + b == b;
    ParseIntOfNumeral(a);
    ParseIntOfNumeral(b);
  }

  lemma {:induction false} MembersCount(xs: seq<int>)
    ensures var m := set x | x in xs; |m| <= |xs| && (|m| == |xs| <==> Distinct(xs))
  {
    var m := set x | x in xs;
    if xs != [] {
      MembersCount(xs[1..]);
      var rest := set x | x in xs[1..];
      assert m == rest + {xs[0]};
      assert xs[0] in rest <==> exists k :: 1 <= k < |xs| && xs[k] == xs[0];
    }
  }

  lemma {:induction false} JoinLength(parts: seq<string>)
    requires parts != [] && forall k :: 0 <= k < |parts| ==> |parts[k]| == 1
    ensures |Join(parts)| == 2 * |parts| - 1
  {
    if |parts| > 1 { JoinLength(parts[1..]); }
  }

  /** Distinct days are listed alike by both; a repeated one never is. */
  lemma {:induction false} DowsAgreeExactlyWhen(days: seq<int>)
    requires days != [] && Pills(days)
    ensures forall k :: 0 <= k < |Ascending(days, 7)| ==> Ascending(days, 7)[k] >= 0
    ensures PreviewDow(days) == Dow(Ascending(days, 7)) <==> Distinct(days)
  {
    hide Join, Sorted, Ascending, Itoa;
    var u, s := Ascending(days, 7), Sorted(days);
    AscendingMeans(days, 7);
    SortedMeans(days);
    if Distinct(days) {
      StrictIsAscending(s, days, 7);
    } else {
      MembersCount(days);
      MembersCount(u);
      assert (set x | x in u) == (set x | x in days);
      assert days[0] in u;
      assert forall k :: 0 <= k < |s| ==> s[k] in s;
      ShapeOfList(u);
      ShapeOfList(s);
    }
  }

  lemma ShapeOfList(ds: seq<int>)
    requires ds != [] && forall k :: 0 <= k < |ds| ==> 0 <= ds[k] < 7
    ensures |Join(Numerals(ds))| == 2 * |ds| - 1 && Join(Numerals(ds)) != "*"
  {
    JoinLength(Numerals(ds));
    JoinIsSolid(Numerals(ds));
  }

  lemma SpecsDifferByDow(t: Clock, d: string, e: string)
    ensures Spec(t, d) == Spec(t, e) <==> d == e
  {
    var p := Itoa(t.min) + " " + Itoa(t.hour) + " * * ";
    assert Spec(t, d)[|p|..] == d && Spec(t, e)[|p|..] == e;
  }

  /** What the console previews is what the server will store, exactly when no day is
      picked twice. */
  lemma {:induction false} PreviewAgreesExactlyWhen(days: seq<int>, a: string, b: string)
    requires Pills(days) && Numeric(a) && Numeric(b) && Built(days, a + ":" + b).Ok?
    ensures Preview(days, a + ":" + b) == Some(Built(days, a + ":" + b).value) <==> Distinct(days)
  {
    hide ParseTime, Spec, Preview, PreviewDow, Dow;
    PreviewOfClock(days, a, b);
    ReadsClock(a, b);
    DowsAgreeExactlyWhen(days);
    SpecsDifferByDow(Clock(Value(a), Value(b)), PreviewDow(days), Dow(Ascending(days, 7)));
  }

  // ------------------------------------------------------------------- the loops

  method ParseTimeOfDay(s: string) returns (r: Result<Clock>)
    ensures r == ParseTime(s)
  {
    var parts := SplitOn(Trim(s, GoSpace), ':', "");
    if |parts| != 2 { return Err(BadTime); }
    var hour := Atoi(parts[0]);
    if hour.None? || hour.value < 0 || hour.value > 23 { return Err(BadHour); }
    var min := Atoi(parts[1]);
    if min.None? || min.value < 0 || min.value > 59 { return Err(BadMinute); }
    r := Ok(Clock(hour.value, min.value));
  }

  /** The days seen, once each, or the first that is no day. */
  method UniqueDays(days: seq<int>) returns (bad: Option<int>, uniq: seq<int>)
    ensures bad == FirstBad(days)
    ensures bad.None? ==> Distinct(uniq) && (forall d :: d in uniq <==> d in days) && (forall d :: d in uniq ==> ValidDay(d))
  {
    var seen: map<int, bool> := map[];
    uniq := [];
    for i := 0 to |days|
      invariant FirstBad(days) == FirstBad(days[i..])
      invariant seen.Keys == (set d | d in uniq) && Distinct(uniq)
      invariant forall d :: d in uniq <==> d in days[..i]
      invariant forall d :: d in uniq ==> ValidDay(d)
    {
      var d := days[i];
      assert days[i..][0] == d && days[i..][1..] == days[i + 1..];
      assert days[..i + 1] == days[..i] + [d];
      if d < 0 || d > 6 { return Some(d), uniq; }
      if d !in seen {
        seen := seen[d := true];
        uniq := uniq + [d];
      }
    }
    assert days[..|days|] == days;
    bad := None;
  }

  method PrintDow(uniq: seq<int>) returns (dow: string)
    requires forall k :: 0 <= k < |uniq| ==> uniq[k] >= 0
    ensures dow == Dow(uniq)
  {
    dow := "*";
    if |uniq| < 7 {
      var parts: seq<string> := [];
      for i := 0 to |uniq|
        invariant parts == Numerals(uniq)[..i]
      {
        parts := parts + [Itoa(uniq[i])];
      }
      assert parts == Numerals(uniq);
      dow := Join(parts);
    }
  }

  method BuildCronFromDays(days: seq<int>, time: string) returns (r: Result<string>)
    ensures r == Built(days, time)
  {
    hide ParseTime, FirstBad, Dow, Itoa, Ascending, Sorted;
    var t := ParseTimeOfDay(time);
    if t.Err? { return Err(t.error); }
    if |days| == 0 { return Err(NoDays); }
    var bad, uniq := UniqueDays(days);
    if bad.Some? { return Err(BadDay(bad.value)); }
    SortedMeans(uniq);
    uniq := Sorted(uniq);
    StrictIsAscending(uniq, days, 7);
    AscendingMeans(days, 7);
    var dow := PrintDow(uniq);
    r := Ok(Itoa(t.value.min) + " " + Itoa(t.value.hour) + " * * " + dow);
  }

  lemma DaysOfNext(parts: seq<string>, i: nat)
    requires i < |parts|
    ensures DaysOf(parts[i..]) ==
            (var d, rest := DayOf(parts[i]), DaysOf(parts[i + 1..]);
             if d.None? || rest.None? then None else Some([d.value] + rest.value))
  {
    assert parts[i..][1..] == parts[i + 1..];
  }

  method ReadDays(parts: seq<string>) returns (r: Option<seq<int>>)
    ensures r == DaysOf(parts)
  {
    hide DaysOf;
    var days: seq<int> := [];
    assert parts[0..] == parts;
    for i := 0 to |parts|
      invariant DaysOf(parts).None? <==> DaysOf(parts[i..]).None?
      invariant DaysOf(parts).Some? ==> DaysOf(parts).value == days + DaysOf(parts[i..]).value
    {
      DaysOfNext(parts, i);
      if !Numeric(parts[i]) { return None; }
      days := days + [Value(parts[i]) % 7];
    }
    NoDaysLeft(parts[|parts|..]);
    assert DaysOf(parts).value == days;
    r := Some(days);
  }

  lemma NoDaysLeft(parts: seq<string>)
    ensures parts == [] ==> DaysOf(parts) == Some([])
  {
  }

  method ParseSpecTiming(spec: string) returns (r: Option<Timing>)
    ensures r == Parsed(spec)
  {
    hide SplitRuns, SplitOn, DaysOf, Trim, Pad2;
    var p := SplitRuns(Trim(spec, JsSpace), "");
    if |p| != 5 { return None; }
    if !Numeric(p[0]) || !Numeric(p[1]) { return None; }
    if p[2] != "*" || p[3] != "*" { return None; }
    var time := Pad2(p[1]) + ":" + Pad2(p[0]);
    if p[4] == "*" { return Some(Timing([0, 1, 2, 3, 4, 5, 6], time)); }
    var days := ReadDays(SplitOn(p[4], ',', ""));
    if days.None? { return None; }
    r := Some(Timing(days.value, time));
  }
}
