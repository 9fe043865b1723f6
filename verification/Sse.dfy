/** Server-sent events: the frames the panel writes, and the stream reader of sections 9.2.5 and
    9.2.6 of the WHATWG HTML standard. */
module Sse {
  import opened Wrappers
  import opened Lines

  // ---- Writing ----

  function DataLines(lines: seq<string>): string {
    if lines == [] then "" else DataLines(lines[..|lines| - 1]) + ("data: " + lines[|lines| - 1] + "\n")
  }

  // One named event, a data line for every line of the payload.
  function Frame(event: string, payload: string): string {
    "event: " + event + "\n" + (DataLines(SplitLines(payload)) + "\n")
  }

  const KEEPALIVE := ": keepalive\n\n"

  method SseFrame(event: string, payload: string) returns (b: string)
    ensures b == Frame(event, payload)
  {
    b := "event: " + event + "\n";
    var lines := SplitLines(payload);
    for i := 0 to |lines|
      invariant b == "event: " + event + "\n" + DataLines(lines[..i])
    {
      assert lines[..i + 1][..i] == lines[..i];
      b := b + "data: ";
      b := b + lines[i];
      b := b + "\n";
    }
    assert lines[..|lines|] == lines;
    b := b + "\n";
  }

  // ---- Reading ----

  datatype Message = Message(event: string, data: string)

  predicate IsBreak(c: char) { c == '\r' || c == '\n' }

  // Lines end in CR LF, LF or CR; text after the last of them is pending and is discarded.
  function StreamLines(s: string): seq<string> {
    var k := BreakAt(s);
    if k == |s| then []
    else [s[..k]] + StreamLines(s[if s[k] == '\r' && k + 1 < |s| && s[k + 1] == '\n' then k + 2 else k + 1..])
  }

  function BreakAt(s: string): (k: nat)
    ensures k <= |s| && (k < |s| ==> IsBreak(s[k])) && forall i :: 0 <= i < k ==> !IsBreak(s[i])
  {
    if s == "" || IsBreak(s[0]) then 0 else 1 + BreakAt(s[1..])
  }

  function ColonAt(s: string): (k: nat)
    ensures k <= |s| && (k < |s| ==> s[k] == ':') && forall i :: 0 <= i < k ==> s[i] != ':'
  {
    if s == "" || s[0] == ':' then 0 else 1 + ColonAt(s[1..])
  }

  // The event type buffer, the data buffer, and what has been dispatched.
  datatype Parse = Parse(event: string, data: string, sent: seq<Message>)

  function Unspaced(v: string): string { if v != "" && v[0] == ' ' then v[1..] else v }

  function ProcessField(p: Parse, name: string, value: string): Parse {
    if name == "event" then p.(event := value)
    else if name == "data" then p.(data := p.data + value + "\n")
    else p  // id and retry do not bear on what is dispatched
  }

  function Dispatch(p: Parse): Parse {
    if p.data == "" then p.(event := "")
    else
      var data := if p.data[|p.data| - 1] == '\n' then p.data[..|p.data| - 1] else p.data;
      Parse("", "", p.sent + [Message(if p.event == "" then "message" else p.event, data)])
  }

  function ProcessLine(p: Parse, line: string): Parse {
    if line == "" then Dispatch(p)
    else
      var k := ColonAt(line);
      if k == 0 then p
      else if k == |line| then ProcessField(p, line, "")
      else ProcessField(p, line[..k], Unspaced(line[k + 1..]))
  }

  function ProcessLines(p: Parse, lines: seq<string>): Parse
    decreases |lines|
  {
    if lines == [] then p else ProcessLines(ProcessLine(p, lines[0]), lines[1..])
  }

  // One leading byte order mark is not part of the stream.
  function Unmarked(s: string): string { if s != "" && s[0] == '\U{FEFF}' then s[1..] else s }

  function ReadStream(s: string): seq<Message> { ProcessLines(Parse("", "", []), StreamLines(Unmarked(s))).sent }

  // ---- What a reader can ever be sent ----

  predicate OneLine(s: string) { forall i :: 0 <= i < |s| ==> !IsBreak(s[i]) }
  predicate NoReturn(s: string) { forall i :: 0 <= i < |s| ==> s[i] != '\r' }

  // Events a stream can carry.
  predicate Carriable(m: Message) { m.event != "" && OneLine(m.event) && NoReturn(m.data) }

  ghost predicate ParseOk(p: Parse) {
    OneLine(p.event) && NoReturn(p.data) && forall i :: 0 <= i < |p.sent| ==> Carriable(p.sent[i])
  }

  lemma {:induction false} StreamLinesAreLines(s: string)
    ensures forall i :: 0 <= i < |StreamLines(s)| ==> OneLine(StreamLines(s)[i])
  {
    var k := BreakAt(s);
    if k < |s| {
      StreamLinesAreLines(s[if s[k] == '\r' && k + 1 < |s| && s[k + 1] == '\n' then k + 2 else k + 1..]);
    }
  }

  lemma FieldKeepsOk(p: Parse, name: string, value: string)
    requires ParseOk(p) && OneLine(value)
    ensures ParseOk(ProcessField(p, name, value))
  {
  }

  lemma DispatchKeepsOk(p: Parse)
    requires ParseOk(p)
    ensures ParseOk(Dispatch(p))
  {
  }

  lemma LineKeepsOk(p: Parse, line: string)
    requires ParseOk(p) && OneLine(line)
    ensures ParseOk(ProcessLine(p, line))
  {
    var k := ColonAt(line);
    if line == "" {
      DispatchKeepsOk(p);
    } else if k == |line| {
      FieldKeepsOk(p, line, "");
    } else {
      FieldKeepsOk(p, line[..k], Unspaced(line[k + 1..]));
    }
  }

  lemma {:induction false} LinesKeepOk(p: Parse, lines: seq<string>)
    requires ParseOk(p) && forall i :: 0 <= i < |lines| ==> OneLine(lines[i])
    ensures ParseOk(ProcessLines(p, lines))
    decreases |lines|
  {
    if lines != [] {
      LineKeepsOk(p, lines[0]);
      LinesKeepOk(ProcessLine(p, lines[0]), lines[1..]);
    }
  }

  // ---- Frames read back ----

  lemma BreakFirst(a: string, b: string)
    requires OneLine(a)
    ensures StreamLines(a + "\n" + b) == [a] + StreamLines(b)
  {
    var s := a + "\n" + b;
    assert s[|a|] == '\n';
    assert BreakAt(s) == |a|;
    assert s[..|a|] == a && s[|a| + 1..] == b;
  }

  lemma FieldRead(p: Parse, name: string, value: string)
    requires name != "" && forall i :: 0 <= i < |name| ==> name[i] != ':'
    ensures ProcessLine(p, name + ": " + value) == ProcessField(p, name, value)
  {
    var line := name + ": " + value;
    assert line[|name|] == ':';
    assert forall i :: 0 <= i < |name| ==> line[i] == name[i];
    assert ColonAt(line) == |name|;
    assert line[..|name|] == name;
    assert line[|name| + 1..] == " " + value && (" " + value)[1..] == value;
  }

  lemma LineRead(p: Parse, line: string, rest: string)
    requires OneLine(line)
    ensures ProcessLines(p, StreamLines(line + "\n" + rest)) == ProcessLines(ProcessLine(p, line), StreamLines(rest))
  {
    BreakFirst(line, rest);
    assert ([line] + StreamLines(rest))[1..] == StreamLines(rest);
  }

  lemma FieldIsOneLine(name: string, value: string)
    requires OneLine(name) && OneLine(value)
    ensures OneLine(name + ": " + value)
  {
  }

  lemma FieldLineRead(p: Parse, name: string, value: string, rest: string)
    requires name != "" && (forall i :: 0 <= i < |name| ==> name[i] != ':') && OneLine(name) && OneLine(value)
    ensures ProcessLines(p, StreamLines((name + ": " + value) + "\n" + rest))
      == ProcessLines(ProcessField(p, name, value), StreamLines(rest))
  {
    var line := name + ": " + value;
    FieldRead(p, name, value);
    FieldIsOneLine(name, value);
    LineRead(p, line, rest);
  }

  lemma DataSplits(lines: seq<string>, rest: string)
    requires lines != []
    ensures var n := |lines| - 1;
      DataLines(lines) + rest == DataLines(lines[..n]) + (("data" + ": " + lines[n]) + "\n" + rest)
  {
    var n := |lines| - 1;
    assert "data" + ": " == "data: ";
    RegroupEnd(DataLines(lines[..n]), "data" + ": ", lines[n], "\n", rest);
  }

  lemma RegroupEnd(a: string, b: string, c: string, d: string, e: string)
    ensures a + (b + c + d) + e == a + ((b + c) + d + e)
  {
  }

  // Each line and its newline.
  function Joined(lines: seq<string>): string {
    if lines == [] then "" else Joined(lines[..|lines| - 1]) + lines[|lines| - 1] + "\n"
  }

  lemma DataGrows(p: Parse, lines: seq<string>)
    requires lines != []
    ensures var n := |lines| - 1;
      ProcessField(p.(data := p.data + Joined(lines[..n])), "data", lines[n]) == p.(data := p.data + Joined(lines))
  {
    var n := |lines| - 1;
    Regroup(p.data, Joined(lines[..n]), lines[n], "\n");
  }

  lemma Regroup(a: string, b: string, c: string, d: string)
    ensures a + b + c + d == a + (b + c + d)
  {
  }

  // The stream's lines that make up data lines, with the rest of the stream behind them.
  lemma {:induction false} DataRead(p: Parse, lines: seq<string>, rest: string)
    requires forall i :: 0 <= i < |lines| ==> OneLine(lines[i])
    ensures ProcessLines(p, StreamLines(DataLines(lines) + rest))
      == ProcessLines(p.(data := p.data + Joined(lines)), StreamLines(rest))
    decreases |lines|
  {
    if lines == [] {
      assert DataLines(lines) + rest == rest && p.data + "" == p.data;
    } else {
      DataSplits(lines, rest);
      LastDataRead(p, lines, rest);
      var n := |lines| - 1;
      DataRead(p, lines[..n], ("data" + ": " + lines[n]) + "\n" + rest);
    }
  }

  lemma LastDataRead(p: Parse, lines: seq<string>, rest: string)
    requires lines != [] && OneLine(lines[|lines| - 1])
    ensures var n := |lines| - 1;
      ProcessLines(p.(data := p.data + Joined(lines[..n])), StreamLines(("data" + ": " + lines[n]) + "\n" + rest))
      == ProcessLines(p.(data := p.data + Joined(lines)), StreamLines(rest))
  {
    var n := |lines| - 1;
    DataGrows(p, lines);
    FieldLineRead(p.(data := p.data + Joined(lines[..n])), "data", lines[n], rest);
  }

  lemma {:induction false} JoinedFront(line: string, lines: seq<string>)
    ensures Joined([line] + lines) == line + "\n" + Joined(lines)
    decreases |lines|
  {
    var all := [line] + lines;
    if lines == [] {
      assert all[..0] == [] && Joined(all) == Joined([]) + line + "\n";
    } else {
      var n := |lines| - 1;
      assert all[..|all| - 1] == [line] + lines[..n];
      JoinedFront(line, lines[..n]);
    }
  }

  lemma {:induction false} SplitIsLines(s: string)
    requires NoReturn(s)
    ensures forall i :: 0 <= i < |SplitLines(s)| ==> OneLine(SplitLines(s)[i])
  {
    if '\n' in s { SplitIsLines(s[Newline(s) + 1..]); }
  }

  lemma {:induction false} SplitJoins(s: string)
    ensures Joined(SplitLines(s)) == s + "\n"
  {
    if '\n' in s {
      var k := Newline(s);
      var a, b := s[..k], s[k + 1..];
      assert s == a + "\n" + b;
      SplitJoins(b);
      JoinedFront(a, SplitLines(b));
      assert a + "\n" + (b + "\n") == a + "\n" + b + "\n";
    } else {
      JoinedFront(s, []);
      assert [s] + [] == [s];
    }
  }

  lemma BlankLineRead(sent: seq<Message>, m: Message, rest: string)
    requires m.event != ""
    ensures ProcessLines(Parse(m.event, m.data + "\n", sent), StreamLines("\n" + rest))
      == ProcessLines(Parse("", "", sent + [m]), StreamLines(rest))
  {
    var p := Parse(m.event, m.data + "\n", sent);
    assert "" + "\n" + rest == "\n" + rest;
    LineRead(p, "", rest);
    assert p.data[..|p.data| - 1] == m.data;
  }

  lemma FrameSplits(event: string, payload: string, rest: string)
    ensures Frame(event, payload) + rest
      == "event" + ": " + event + "\n" + (DataLines(SplitLines(payload)) + ("\n" + rest))
  {
    var d := DataLines(SplitLines(payload));
    assert "event" + ": " == "event: ";
    assert d + "\n" + rest == d + ("\n" + rest);
  }

  lemma FrameRead(sent: seq<Message>, m: Message, rest: string)
    requires Carriable(m)
    ensures ProcessLines(Parse("", "", sent), StreamLines(Frame(m.event, m.data) + rest))
      == ProcessLines(Parse("", "", sent + [m]), StreamLines(rest))
  {
    var lines := SplitLines(m.data);
    SplitIsLines(m.data);
    SplitJoins(m.data);
    FrameSplits(m.event, m.data, rest);
    FieldLineRead(Parse("", "", sent), "event", m.event, DataLines(lines) + ("\n" + rest));
    DataRead(Parse(m.event, "", sent), lines, "\n" + rest);
    assert "" + Joined(lines) == m.data + "\n";
    BlankLineRead(sent, m, rest);
  }

  lemma KeepaliveRead(sent: seq<Message>, rest: string)
    ensures ProcessLines(Parse("", "", sent), StreamLines(KEEPALIVE + rest))
      == ProcessLines(Parse("", "", sent), StreamLines(rest))
  {
    var p := Parse("", "", sent);
    assert KEEPALIVE + rest == ": keepalive" + "\n" + ("" + "\n" + rest);
    LineRead(p, ": keepalive", "" + "\n" + rest);
    LineRead(p, "", rest);
  }

  // ---- Whole streams ----

  datatype Item = Event(m: Message) | Keepalive

  function Shown(item: Item): string {
    match item case Event(m) => Frame(m.event, m.data) case Keepalive => KEEPALIVE
  }

  function SentBy(item: Item): seq<Message> { match item case Event(m) => [m] case Keepalive => [] }

  function Written(items: seq<Item>): string {
    if items == [] then "" else Shown(items[0]) + Written(items[1..])
  }

  function Sent(items: seq<Item>): seq<Message> {
    if items == [] then [] else SentBy(items[0]) + Sent(items[1..])
  }

  lemma ItemRead(sent: seq<Message>, item: Item, rest: string)
    requires item.Event? ==> Carriable(item.m)
    ensures ProcessLines(Parse("", "", sent), StreamLines(Shown(item) + rest))
      == ProcessLines(Parse("", "", sent + SentBy(item)), StreamLines(rest))
  {
    if item.Event? {
      FrameRead(sent, item.m, rest);
    } else {
      KeepaliveRead(sent, rest);
      assert sent + [] == sent;
    }
  }

  lemma NothingRead(p: Parse)
    ensures ProcessLines(p, StreamLines("")) == p
  {
  }

  lemma SentInOrder(a: seq<Message>, b: seq<Message>, c: seq<Message>)
    ensures a + b + c == a + (b + c)
  {
  }

  lemma {:induction false} WrittenReads(sent: seq<Message>, items: seq<Item>)
    requires forall i :: 0 <= i < |items| && items[i].Event? ==> Carriable(items[i].m)
    ensures ProcessLines(Parse("", "", sent), StreamLines(Written(items))) == Parse("", "", sent + Sent(items))
    decreases |items|
  {
    if items == [] {
      NothingRead(Parse("", "", sent));
      assert sent + [] == sent;
    } else {
      var item, rest := items[0], items[1..];
      ItemRead(sent, item, Written(rest));
      WrittenReads(sent + SentBy(item), rest);
      SentInOrder(sent, SentBy(item), Sent(rest));
    }
  }

  lemma {:induction false} EveryEventSent(items: seq<Item>, i: nat)
    requires i < |items| && items[i].Event?
    ensures exists k :: 0 <= k < |Sent(items)| && Sent(items)[k] == items[i].m
  {
    if i == 0 {
      assert Sent(items)[0] == items[0].m;
    } else {
      EveryEventSent(items[1..], i - 1);
      var k :| 0 <= k < |Sent(items[1..])| && Sent(items[1..])[k] == items[i].m;
      assert Sent(items)[|Sent(items)| - |Sent(items[1..])| + k] == items[i].m;
    }
  }

  lemma WrittenUnmarked(items: seq<Item>)
    ensures Unmarked(Written(items)) == Written(items)
  {
    if items != [] {
      match items[0]
      case Event(m) => assert Written(items)[0] == 'e';
      case Keepalive => assert Written(items)[0] == ':';
    }
  }

  lemma EverythingReadIsCarriable(text: string)
    ensures forall i :: 0 <= i < |ReadStream(text)| ==> Carriable(ReadStream(text)[i])
  {
    StreamLinesAreLines(Unmarked(text));
    LinesKeepOk(Parse("", "", []), StreamLines(Unmarked(text)));
  }

  predicate AllCarriable(items: seq<Item>) { forall i :: 0 <= i < |items| && items[i].Event? ==> Carriable(items[i].m) }

  lemma SentCarriable(items: seq<Item>)
    requires forall k :: 0 <= k < |Sent(items)| ==> Carriable(Sent(items)[k])
    ensures AllCarriable(items)
  {
    forall i | 0 <= i < |items| && items[i].Event? ensures Carriable(items[i].m) { EveryEventSent(items, i); }
  }

  /** A stream of frames and keepalives, in any order, is read as exactly the events written,
      event names and payloads alike, if and only if every event has a name of one line and a
      payload without a carriage return. Empty payloads and lines that begin with spaces are
      among them. */
  lemma StreamRoundTrip(items: seq<Item>)
    ensures ReadStream(Written(items)) == Sent(items) <==> AllCarriable(items)
  {
    if AllCarriable(items) {
      WrittenUnmarked(items);
      WrittenReads([], items);
      assert [] + Sent(items) == Sent(items);
    } else if ReadStream(Written(items)) == Sent(items) {
      EverythingReadIsCarriable(Written(items));
      SentCarriable(items);
    }
  }

  // ---- The handler ----

  // One rendering of the rows, None if it failed; `taken`: whether the client took the write.
  datatype Rendering = Rendering(rows: Option<string>, taken: bool)

  // What wakes the handler: its request ending, a token, its channel closing, the ticker.
  datatype Wake = Gone | Token(r: Rendering) | ChannelClosed | Tick(taken: bool)

  const ROWS := "rows"

  predicate Stops(w: Wake) {
    w.Gone? || w.ChannelClosed? || (w.Token? && w.r.rows.Some? && !w.r.taken) || (w.Tick? && !w.taken)
  }

  function ItemsOf(w: Wake): seq<Item> {
    if w.Tick? then [Keepalive]
    else if w.Token? && w.r.rows.Some? then [Event(Message(ROWS, w.r.rows.value))]
    else []
  }

  // What the client is given until the handler stops; the first wake is the handler's own.
  function Streamed(wakes: seq<Wake>): seq<Item> {
    if wakes == [] || Stops(wakes[0]) then [] else ItemsOf(wakes[0]) + Streamed(wakes[1..])
  }

  // The client is there, its channel open, and it takes what is written.
  predicate GoesOn(w: Wake) {
    match w
    case Gone => false
    case ChannelClosed => false
    case Token(r) => r.rows.None? || r.taken
    case Tick(taken) => taken
  }

  // What a stretch of wakes gives the client: each rendering's rows, a keepalive at each tick; a
  // rendering that failed is passed over.
  function Given(wakes: seq<Wake>): seq<Item> {
    if wakes == [] then []
    else
      var last := wakes[|wakes| - 1];
      Given(wakes[..|wakes| - 1])
        + if last.Token? && last.r.rows.Some? then [Event(Message("rows", last.r.rows.value))]
          else if last.Tick? then [Keepalive]
          else []
  }

  lemma {:induction false} GivenFront(w: Wake, rest: seq<Wake>)
    ensures Given([w] + rest) == Given([w]) + Given(rest)
    decreases |rest|
  {
    var all := [w] + rest;
    if rest == [] {
      assert all == [w] && Given([w]) + [] == Given([w]);
    } else {
      var n := |rest| - 1;
      assert all[..|all| - 1] == [w] + rest[..n];
      GivenFront(w, rest[..n]);
    }
  }

  lemma OneWake(w: Wake)
    requires GoesOn(w)
    ensures !Stops(w) && ItemsOf(w) == Given([w])
  {
    assert [w][..0] == [] && Given([]) == [];
  }

  /** The handler gives its client the rows and keepalives of every wake up to the first that ends it - its
      request ending, its channel closing, or a write the client does not take - and no others: a
      keepalive or a rendering that failed does not end it. */
  lemma {:induction false} StreamsUntilStopped(wakes: seq<Wake>, n: nat)
    requires n <= |wakes| && forall i :: 0 <= i < n ==> GoesOn(wakes[i])
    requires n < |wakes| ==> !GoesOn(wakes[n])
    ensures Streamed(wakes) == Given(wakes[..n]) && Shown(Keepalive) == ": keepalive\n\n"
    decreases |wakes|
  {
    if n == 0 {
      NothingStreamed(wakes);
    } else {
      var w, rest := wakes[0], wakes[1..];
      forall i | 0 <= i < n - 1 ensures GoesOn(rest[i]) { assert rest[i] == wakes[i + 1]; }
      assert n < |wakes| ==> rest[n - 1] == wakes[n];
      StreamsUntilStopped(rest, n - 1);
      StreamsFirst(w, rest, n - 1);
      assert wakes == [w] + rest && wakes[..n] == [w] + rest[..n - 1];
    }
  }

  lemma NothingStreamed(wakes: seq<Wake>)
    requires wakes != [] ==> !GoesOn(wakes[0])
    ensures Streamed(wakes) == Given(wakes[..0])
  {
  }

  lemma StreamsFirst(w: Wake, rest: seq<Wake>, n: nat)
    requires GoesOn(w) && n <= |rest| && Streamed(rest) == Given(rest[..n])
    ensures Streamed([w] + rest) == Given([w] + rest[..n])
  {
    assert ([w] + rest)[1..] == rest;
    OneWake(w);
    GivenFront(w, rest[..n]);
  }

  lemma {:induction false} WrittenAppend(a: seq<Item>, b: seq<Item>)
    ensures Written(a + b) == Written(a) + Written(b)
  {
    if a == [] {
      assert a + b == b;
    } else {
      assert (a + b)[1..] == a[1..] + b;
      WrittenAppend(a[1..], b);
    }
  }

  method Send(r: Rendering, sofar: string) returns (out: string, ok: bool)
    ensures ok == !Stops(Token(r))
    ensures out == sofar + if ok then Written(ItemsOf(Token(r))) else ""
  {
    if r.rows.None? { return sofar, true; }
    if !r.taken { return sofar, false; }
    var frame := SseFrame(ROWS, r.rows.value);
    var item := Event(Message(ROWS, r.rows.value));
    assert [item][1..] == [] && Written([item]) == frame + "";
    return sofar + frame, true;
  }

  method OnWake(w: Wake, sofar: string) returns (out: string, ok: bool)
    ensures ok == !Stops(w)
    ensures out == sofar + if ok then Written(ItemsOf(w)) else ""
  {
    match w
    case Gone => return sofar, false;
    case ChannelClosed => return sofar, false;
    case Token(r) => out, ok := Send(r, sofar);
    case Tick(taken) =>
      if !taken { return sofar, false; }
      assert [Keepalive][1..] == [] && Written([Keepalive]) == KEEPALIVE + "";
      return sofar + KEEPALIVE, true;
  }

  method GetEvents(first: Rendering, wakes: seq<Wake>) returns (out: string)
    ensures out == Written(Streamed([Token(first)] + wakes))
  {
    ghost var all := [Token(first)] + wakes;
    ghost var done := ItemsOf(Token(first));
    assert all[1..] == wakes;
    var ok;
    out, ok := Send(first, "");
    if !ok { return; }
    var i := 0;
    while i < |wakes|
      invariant 0 <= i <= |wakes|
      invariant out == Written(done) && Streamed(all) == done + Streamed(wakes[i..])
      decreases |wakes| - i
    {
      var w := wakes[i];
      NextWake(done, wakes[i..]);
      assert wakes[i..][1..] == wakes[i + 1..];
      out, ok := OnWake(w, out);
      if !ok { return; }
      done := done + ItemsOf(w);
      i := i + 1;
    }
    assert done + [] == done;
  }

  lemma NextWake(done: seq<Item>, wakes: seq<Wake>)
    requires wakes != []
    ensures done + Streamed(wakes) ==
      if Stops(wakes[0]) then done else (done + ItemsOf(wakes[0])) + Streamed(wakes[1..])
    ensures Written(done + ItemsOf(wakes[0])) == Written(done) + Written(ItemsOf(wakes[0]))
  {
    WrittenAppend(done, ItemsOf(wakes[0]));
    ItemsInOrder(done, ItemsOf(wakes[0]), Streamed(wakes[1..]));
  }

  lemma ItemsInOrder(a: seq<Item>, b: seq<Item>, c: seq<Item>)
    ensures a + b + c == a + (b + c) && a + [] == a
  {
  }

  predicate NoReturns(items: seq<Item>) {
    forall i :: 0 <= i < |items| && items[i].Event? ==> NoReturn(items[i].m.data)
  }

  lemma RowsCarriable(items: seq<Item>)
    requires forall i :: 0 <= i < |items| && items[i].Event? ==> items[i].m.event == ROWS
    ensures AllCarriable(items) <==> NoReturns(items)
  {
    assert OneLine(ROWS);
    forall i | 0 <= i < |items| && items[i].Event? ensures Carriable(items[i].m) <==> NoReturn(items[i].m.data) {}
  }

  /** What a handler streams is read back as the rows it rendered, in order, if and only if none
      of them holds a carriage return. */
  lemma RowsRoundTrip(wakes: seq<Wake>)
    ensures ReadStream(Written(Streamed(wakes))) == Sent(Streamed(wakes)) <==> NoReturns(Streamed(wakes))
  {
    RowsAreNamed(wakes);
    RowsCarriable(Streamed(wakes));
    StreamRoundTrip(Streamed(wakes));
  }

  lemma {:induction false} RowsAreNamed(wakes: seq<Wake>)
    ensures forall i :: 0 <= i < |Streamed(wakes)| && Streamed(wakes)[i].Event? ==> Streamed(wakes)[i].m.event == ROWS
  {
    if wakes != [] { RowsAreNamed(wakes[1..]); }
  }
}
