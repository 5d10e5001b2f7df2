/** The live event stream: the server's poll loop and printer, and the browser's incremental reader. */
module EventStream {
  import opened Wrappers

  datatype Event<+T> = Event(name: string, data: T)

  /** JSON, as far as the stream depends on it. */
  datatype Codec<!T> = Codec(encode: T -> string, decode: string -> Option<T>)

  /** Decoding undoes encoding, and an encoded object is one line between braces. */
  ghost predicate Faithful<T(!new)>(c: Codec<T>) {
    forall x :: c.decode(c.encode(x)) == Some(x) && Braced(c.encode(x))
  }

  predicate Braced(s: string) {
    |s| >= 2 && s[0] == '{' && s[|s| - 1] == '}' && '\n' !in s
  }

  // ----- the printer -----

  function Body<T>(c: Codec<T>, e: Event<T>): string { "event: " + e.name + "\ndata: " + c.encode(e.data) }

  function Sse<T>(c: Codec<T>, e: Event<T>): string { Body(c, e) + "\n\n" }

  function PrintAll<T>(c: Codec<T>, es: seq<Event<T>>): string {
    if es == [] then "" else Sse(c, es[0]) + PrintAll(c, es[1..])
  }

  // ----- the reader's string functions -----

  predicate Space(c: char) {
    c in {' ', '\t', '\n', '\r', '\U{000B}', '\U{000C}', '\U{00A0}', '\U{1680}', '\U{2028}', '\U{2029}', '\U{202F}',
          '\U{205F}', '\U{3000}', '\U{FEFF}'} || '\U{2000}' <= c <= '\U{200A}'
  }

  function TrimStart(s: string): string {
    if s != "" && Space(s[0]) then TrimStart(s[1..]) else s
  }

  function TrimEnd(s: string): string {
    if s != "" && Space(s[|s| - 1]) then TrimEnd(s[..|s| - 1]) else s
  }

  function Trim(s: string): string { TrimEnd(TrimStart(s)) }

  /** Where the first blank line of `s` begins, or its length when there is none. */
  function BlankLine(s: string): (i: nat)
    ensures i <= |s|
    ensures i < |s| ==> i + 2 <= |s| && s[i] == '\n' && s[i + 1] == '\n'
  {
    if |s| < 2 then |s|
    else if s[0] == '\n' && s[1] == '\n' then 0
    else 1 + BlankLine(s[1..])
  }

  function Lines(s: string): (ls: seq<string>)
    ensures |ls| > 0
  {
    if s == "" then [""]
    else
      var rest := Lines(s[1..]);
      if s[0] == '\n' then [""] + rest else [[s[0]] + rest[0]] + rest[1..]
  }

  function AfterPrefix(line: string, prefix: string): Option<string> {
    if |line| >= |prefix| && line[..|prefix|] == prefix then Some(line[|prefix|..]) else None
  }

  // ----- parsing one frame -----

  /** The event name and data gathered from the lines of a frame. */
  function ReadLine(acc: (string, string), line: string): (string, string) {
    match AfterPrefix(line, "event:")
    case Some(rest) => (Trim(rest), acc.1)
    case None =>
      match AfterPrefix(line, "data:")
      case Some(rest) => (acc.0, acc.1 + Trim(rest))
      case None => acc
  }

  function ReadLines(acc: (string, string), lines: seq<string>): (string, string)
    decreases |lines|
  {
    if lines == [] then acc else ReadLines(ReadLine(acc, lines[0]), lines[1..])
  }

  function Parsed<T>(c: Codec<T>, frame: string): Option<Event<T>> {
    var (name, data) := ReadLines(("message", ""), Lines(frame));
    if data == "" then None
    else
      match c.decode(data)
      case Some(x) => Some(Event(name, x))
      case None => None
  }

  method ParseChunk<T>(c: Codec<T>, chunk: string) returns (e: Option<Event<T>>)
    ensures e == Parsed(c, chunk)
  {
    var name, data := "message", "";
    var lines := Lines(chunk);
    for i := 0 to |lines|
      invariant ReadLines((name, data), lines[i..]) == ReadLines(("message", ""), lines)
    {
      var line := lines[i];
      assert lines[i..][1..] == lines[i + 1..];
      if |line| >= 6 && line[..6] == "event:" {
        name := Trim(line[6..]);
      } else if |line| >= 5 && line[..5] == "data:" {
        data := data + Trim(line[5..]);
      }
    }
    if data == "" {
      return None;
    }
    match c.decode(data) {
      case Some(x) => return Some(Event(name, x));
      case None => return None;
    }
  }

  // ----- splitting the text -----

  function FirstFrameOf(s: string): string
    requires BlankLine(s) < |s|
  { s[..BlankLine(s)] }

  function AfterFirst(s: string): (rest: string)
    requires BlankLine(s) < |s|
    ensures |rest| < |s|
  { s[BlankLine(s) + 2..] }

  /** The complete frames of a text. */
  function Frames(s: string): seq<string>
    decreases |s|
  {
    if BlankLine(s) == |s| then [] else [FirstFrameOf(s)] + Frames(AfterFirst(s))
  }

  /** What is left after the last complete frame. */
  function Rest(s: string): string
    decreases |s|
  {
    if BlankLine(s) == |s| then s else Rest(AfterFirst(s))
  }

  lemma {:induction false} BlankLineAppend(s: string, t: string)
    requires BlankLine(s) < |s|
    ensures BlankLine(s + t) == BlankLine(s)
  {
    if !(s[0] == '\n' && s[1] == '\n') {
      assert (s + t)[1..] == s[1..] + t;
      BlankLineAppend(s[1..], t);
    }
  }

  /** Splitting a text in pieces loses nothing: the unfinished end is carried over. */
  lemma {:induction false} FramesAppend(s: string, t: string)
    ensures Frames(s + t) == Frames(s) + Frames(Rest(s) + t)
    ensures Rest(s + t) == Rest(Rest(s) + t)
    decreases |s|
  {
    if BlankLine(s) < |s| {
      var first, rest := FirstFrameOf(s), AfterFirst(s);
      BlankLineAppend(s, t);
      assert AfterFirst(s + t) == rest + t && FirstFrameOf(s + t) == first;
      FramesAppend(rest, t);
      FramesStep(s);
      FramesStep(s + t);
      Associates([first], Frames(rest), Frames(Rest(rest) + t));
    }
  }

  lemma Associates<T>(xs: seq<T>, ys: seq<T>, zs: seq<T>)
    ensures xs + (ys + zs) == (xs + ys) + zs
  {}

  lemma FramesStep(s: string)
    requires BlankLine(s) < |s|
    ensures Frames(s) == [FirstFrameOf(s)] + Frames(AfterFirst(s))
    ensures Rest(s) == Rest(AfterFirst(s))
  {}

  function Concat(chunks: seq<string>): string {
    if chunks == [] then "" else Concat(chunks[..|chunks| - 1]) + chunks[|chunks| - 1]
  }

  // ----- the reader -----

  /** What the page shows: the steps so far, and the data of the done event once it came. */
  datatype Page<+T> = Page(steps: seq<T>, status: Option<T>)

  function Show<T>(page: Page<T>, e: Event<T>): Page<T> {
    if page.status.Some? then page
    else if e.name == "step" then page.(steps := page.steps + [e.data])
    else if e.name == "done" then page.(status := Some(e.data))
    else page
  }

  function ShowAll<T>(page: Page<T>, es: seq<Event<T>>): Page<T>
    decreases |es|
  {
    if es == [] then page else ShowAll(Show(page, es[0]), es[1..])
  }

  /** The events of a list of frames; a frame that is not an event is skipped. */
  function Events<T>(c: Codec<T>, frames: seq<string>): seq<Event<T>> {
    if frames == [] then []
    else (match Parsed(c, frames[0]) case Some(e) => [e] case None => []) + Events(c, frames[1..])
  }

  lemma {:induction false} EventsConcat<T>(c: Codec<T>, xs: seq<string>, ys: seq<string>)
    ensures Events(c, xs + ys) == Events(c, xs) + Events(c, ys)
  {
    if xs == [] {
      assert xs + ys == ys;
    } else {
      assert (xs + ys)[1..] == xs[1..] + ys;
      EventsConcat(c, xs[1..], ys);
    }
  }

  lemma EventsStep<T>(c: Codec<T>, frame: string, frames: seq<string>)
    ensures Events(c, [frame] + frames) ==
            (match Parsed(c, frame) case Some(e) => [e] case None => []) + Events(c, frames)
  {
    assert ([frame] + frames)[1..] == frames;
  }

  lemma {:induction false} ShowAllConcat<T>(page: Page<T>, xs: seq<Event<T>>, ys: seq<Event<T>>)
    ensures ShowAll(page, xs + ys) == ShowAll(ShowAll(page, xs), ys)
    decreases |xs|
  {
    if xs == [] {
      assert xs + ys == ys;
    } else {
      assert (xs + ys)[1..] == xs[1..] + ys;
      ShowAllConcat(Show(page, xs[0]), xs[1..], ys);
    }
  }

  lemma {:induction false} ShowAfterDone<T>(page: Page<T>, es: seq<Event<T>>)
    requires page.status.Some?
    ensures ShowAll(page, es) == page
  {
    if es != [] {
      ShowAfterDone(page, es[1..]);
    }
  }

  /** The page after a whole text. */
  function PageOf<T>(c: Codec<T>, text: string): Page<T> {
    ShowAll(Page([], None), Events(c, Frames(text)))
  }

  function ShowFrame<T>(c: Codec<T>, page: Page<T>, frame: string): Page<T> {
    match Parsed(c, frame)
    case Some(e) => Show(page, e)
    case None => page
  }

  lemma ShowFirstFrame<T>(c: Codec<T>, page: Page<T>, text: string)
    requires BlankLine(text) < |text|
    ensures ShowAll(page, Events(c, Frames(text))) ==
            ShowAll(ShowFrame(c, page, FirstFrameOf(text)), Events(c, Frames(AfterFirst(text))))
  {
    FramesStep(text);
    var frame, later := FirstFrameOf(text), Events(c, Frames(AfterFirst(text)));
    EventsStep(c, frame, Frames(AfterFirst(text)));
    match Parsed(c, frame) {
      case Some(e) => assert ([e] + later)[1..] == later;
      case None => assert [] + later == later;
    }
  }

  /** Take the complete frames out of the buffer, stopping for good at a done event. */
  method Drain<T>(c: Codec<T>, text: string, before: Page<T>) returns (buffer: string, page: Page<T>)
    requires before.status.None?
    ensures page == ShowAll(before, Events(c, Frames(text)))
    ensures page.status.None? ==> buffer == Rest(text)
  {
    buffer, page := text, before;
    ghost var goal := ShowAll(before, Events(c, Frames(text)));
    while BlankLine(buffer) < |buffer|
      invariant page.status.None?
      invariant ShowAll(page, Events(c, Frames(buffer))) == goal
      invariant Rest(buffer) == Rest(text)
      decreases |buffer|
    {
      var sep := BlankLine(buffer);
      var raw := buffer[..sep];
      ShowFirstFrame(c, page, buffer);
      FramesStep(buffer);
      buffer := buffer[sep + 2..];
      var ev := ParseChunk(c, raw);
      if ev.Some? {
        page := Show(page, ev.value);
        if page.status.Some? {
          ShowAfterDone(page, Events(c, Frames(buffer)));
          return;
        }
      }
    }
    assert Frames(buffer) == [];
  }

  /** The reading loop: however the text is cut into chunks, the page is that of the whole text. */
  method ReadStream<T>(c: Codec<T>, chunks: seq<string>) returns (page: Page<T>)
    ensures page == PageOf(c, Concat(chunks))
  {
    page := Page([], None);
    var buffer := "";
    for i := 0 to |chunks|
      invariant page.status.None? && page == PageOf(c, Concat(chunks[..i])) && buffer == Rest(Concat(chunks[..i]))
    {
      ghost var before := Concat(chunks[..i]);
      assert chunks[..i + 1][..i] == chunks[..i];
      FramesAppend(before, chunks[i]);
      EventsConcat(c, Frames(before), Frames(buffer + chunks[i]));
      ShowAllConcat(Page([], None), Events(c, Frames(before)), Events(c, Frames(buffer + chunks[i])));
      buffer, page := Drain(c, buffer + chunks[i], page);
      if page.status.Some? {
        MoreText(c, chunks, i + 1);
        return;
      }
    }
    assert chunks[..|chunks|] == chunks;
  }

  /** Once a done event has come, the rest of the text does not matter. */
  lemma {:induction false} MoreText<T>(c: Codec<T>, chunks: seq<string>, i: nat)
    requires i <= |chunks| && PageOf(c, Concat(chunks[..i])).status.Some?
    ensures PageOf(c, Concat(chunks)) == PageOf(c, Concat(chunks[..i]))
    decreases |chunks| - i
  {
    if i == |chunks| {
      assert chunks[..i] == chunks;
    } else {
      var before := Concat(chunks[..i]);
      assert chunks[..i + 1][..i] == chunks[..i];
      var more := Frames(Rest(before) + chunks[i]);
      FramesAppend(before, chunks[i]);
      EventsConcat(c, Frames(before), more);
      ShowAllConcat(Page([], None), Events(c, Frames(before)), Events(c, more));
      ShowAfterDone(PageOf(c, before), Events(c, more));
      MoreText(c, chunks, i + 1);
    }
  }

  // ----- the round trip -----

  /** An event name that survives being trimmed and does not break its line. */
  predicate PlainName(name: string) { '\n' !in name && Trim(name) == name }

  /** The first blank line of a two-line text is the one after it. */
  lemma {:induction false} BlankLineOfTwo(a: string, b: string, t: string)
    requires '\n' !in a && '\n' !in b && b != ""
    ensures BlankLine(a + "\n" + b + "\n\n" + t) == |a| + 1 + |b|
    decreases |a|
  {
    var s := a + "\n" + b + "\n\n" + t;
    if a == "" {
      assert s[0] == '\n' && s[1] == b[0] && s[1..] == b + "\n\n" + t;
      BlankLineFirst(b, t);
    } else {
      assert s[1..] == a[1..] + "\n" + b + "\n\n" + t;
      BlankLineOfTwo(a[1..], b, t);
    }
  }

  lemma {:induction false} BlankLineFirst(b: string, t: string)
    requires '\n' !in b
    ensures BlankLine(b + "\n\n" + t) == |b|
  {
    var s := b + "\n\n" + t;
    if b != "" {
      assert s[1..] == b[1..] + "\n\n" + t;
      BlankLineFirst(b[1..], t);
    }
  }

  lemma {:induction false} LinesOne(a: string)
    requires '\n' !in a
    ensures Lines(a) == [a]
  {
    if a != "" {
      LinesOne(a[1..]);
      assert [a[0]] + a[1..] == a;
    }
  }

  lemma {:induction false} LinesTwo(a: string, b: string)
    requires '\n' !in a && '\n' !in b
    ensures Lines(a + "\n" + b) == [a, b]
  {
    if a == "" {
      LinesOne(b);
      assert (a + "\n" + b)[1..] == b;
    } else {
      assert (a + "\n" + b)[1..] == a[1..] + "\n" + b;
      LinesTwo(a[1..], b);
      assert [a[0]] + a[1..] == a && [a[1..], b][1..] == [b];
    }
  }

  lemma TrimBraced(s: string)
    requires Braced(s)
    ensures Trim(" " + s) == s
  {
    assert (" " + s)[1..] == s;
    assert !Space(s[0]) && !Space(s[|s| - 1]);
    assert TrimStart(" " + s) == TrimStart(s) == s;
  }

  lemma TrimName(name: string)
    requires PlainName(name)
    ensures Trim(" " + name) == name
  {
    assert (" " + name)[1..] == name;
    assert TrimStart(" " + name) == TrimStart(name);
  }

  lemma ReadNameLine(name: string)
    requires PlainName(name)
    ensures ReadLine(("message", ""), "event: " + name) == (name, "")
  {
    var line := "event: " + name;
    assert line[..6] == "event:" && line[6..] == " " + name;
    TrimName(name);
  }

  lemma ReadDataLine(name: string, json: string)
    requires Braced(json)
    ensures ReadLine((name, ""), "data: " + json) == (name, json)
  {
    var line := "data: " + json;
    assert line[0] == 'd' && "event:"[0] == 'e' && line[..6][0] == 'd';
    assert line[..5] == "data:" && line[5..] == " " + json;
    TrimBraced(json);
    assert "" + json == json;
  }

  lemma ReadTwo(acc: (string, string), a: string, b: string)
    ensures ReadLines(acc, [a, b]) == ReadLine(ReadLine(acc, a), b)
  {
    assert [a, b][1..] == [b] && [b][1..] == [];
    assert ReadLines(ReadLine(acc, a), [b]) == ReadLines(ReadLine(ReadLine(acc, a), b), []);
  }

  lemma ParsedBody<T(!new)>(c: Codec<T>, e: Event<T>)
    requires Faithful(c) && PlainName(e.name)
    ensures Parsed(c, Body(c, e)) == Some(e)
  {
    var json := c.encode(e.data);
    assert Braced(json);
    var first, second := "event: " + e.name, "data: " + json;
    assert Body(c, e) == first + "\n" + second;
    LinesTwo(first, second);
    ReadTwo(("message", ""), first, second);
    ReadNameLine(e.name);
    ReadDataLine(e.name, json);
  }

  /** Splitting and parsing what the server printed gives back the events. */
  lemma {:induction false} PrintThenParse<T(!new)>(c: Codec<T>, es: seq<Event<T>>)
    requires Faithful(c) && forall e :: e in es ==> PlainName(e.name)
    ensures Events(c, Frames(PrintAll(c, es))) == es && Rest(PrintAll(c, es)) == ""
  {
    if es != [] {
      var e, tail, text := es[0], PrintAll(c, es[1..]), PrintAll(c, es);
      PrintThenParse(c, es[1..]);
      FirstFrame(c, e, tail);
      assert text == Body(c, e) + "\n\n" + tail;
      FramesStep(text);
      ParsedBody(c, e);
      assert Frames(text)[1..] == Frames(tail);
    }
  }

  lemma FirstFrame<T(!new)>(c: Codec<T>, e: Event<T>, tail: string)
    requires Faithful(c) && PlainName(e.name)
    ensures var text := Body(c, e) + "\n\n" + tail;
            BlankLine(text) == |Body(c, e)| && text[..|Body(c, e)|] == Body(c, e) && text[|Body(c, e)| + 2..] == tail
  {
    assert Braced(c.encode(e.data));
    var first, second := "event: " + e.name, "data: " + c.encode(e.data);
    assert Body(c, e) == first + "\n" + second;
    assert Body(c, e) + "\n\n" + tail == first + "\n" + second + "\n\n" + tail;
    BlankLineOfTwo(first, second, tail);
  }

  // ----- the server's poll loop -----

  /** What one poll reads: the progress rows, then, a moment later, the run's status. */
  datatype Poll<+T> = Poll(steps: seq<T>, terminal: bool, status: T)

  /** What the loop yields, before it is put on the wire. */
  datatype Yield<+T> = Step(row: T) | Done(status: T) | Timeout(status: T)

  function Wire<T>(y: Yield<T>): Event<T> {
    match y
    case Step(row) => Event("step", row)
    case Done(status) => Event("done", status)
    case Timeout(status) => Event("timeout", status)
  }

  function WireAll<T>(ys: seq<Yield<T>>): (es: seq<Event<T>>)
    ensures |es| == |ys| && forall i :: 0 <= i < |es| ==> es[i] == Wire(ys[i])
  { seq(|ys|, i requires 0 <= i < |ys| => Wire(ys[i])) }

  function StepsOf<T>(rows: seq<T>): (ys: seq<Yield<T>>)
    ensures |ys| == |rows| && forall i :: 0 <= i < |ys| ==> ys[i] == Step(rows[i])
  { seq(|rows|, i requires 0 <= i < |rows| => Step(rows[i])) }

  /** The poll at which the loop stops when it has come to poll `i`: the first terminal one, else the last. */
  function LastPoll<T>(polls: seq<Poll<T>>, i: nat): (last: nat)
    requires i < |polls|
    ensures i <= last < |polls| && forall k :: i <= k < last ==> !polls[k].terminal
    ensures polls[last].terminal || last == |polls| - 1
    decreases |polls| - i
  { if polls[i].terminal || i + 1 == |polls| then i else LastPoll(polls, i + 1) }

  /** Within one attempt progress rows are only added. */
  ghost predicate OneAttempt<T>(polls: seq<Poll<T>>) {
    forall i :: 0 < i < |polls| ==> polls[i - 1].steps <= polls[i].steps
  }

  function Closing<T>(p: Poll<T>): Yield<T> { if p.terminal then Done(p.status) else Timeout(p.status) }

  /** The rows a poll has beyond the position already sent. */
  function Unsent<T>(p: Poll<T>, sent: nat): seq<T> { if sent <= |p.steps| then p.steps[sent..] else [] }

  /** What the loop yields from poll `i` on, having sent `sent` rows. */
  function Streamed<T>(polls: seq<Poll<T>>, i: nat, sent: nat): seq<Yield<T>>
    requires i < |polls|
    decreases |polls| - i, 1
  {
    var rows := Unsent(polls[i], sent);
    StepsOf(rows) + AfterRows(polls, i, sent + |rows|)
  }

  /** What follows the rows of poll `i`: the end of the stream, or the next poll. */
  function AfterRows<T>(polls: seq<Poll<T>>, i: nat, sent: nat): seq<Yield<T>>
    requires i < |polls|
    decreases |polls| - i, 0
  {
    if polls[i].terminal || i + 1 == |polls| then [Closing(polls[i])] else Streamed(polls, i + 1, sent)
  }

  lemma StepsOfConcat<T>(xs: seq<T>, ys: seq<T>)
    ensures StepsOf(xs + ys) == StepsOf(xs) + StepsOf(ys)
  {}

  method SendRows<T>(before: seq<Yield<T>>, rows: seq<T>) returns (es: seq<Yield<T>>)
    ensures es == before + StepsOf(rows)
  {
    es := before;
    for k := 0 to |rows|
      invariant es == before + StepsOf(rows[..k])
    {
      StepsOfConcat(rows[..k], [rows[k]]);
      assert rows[..k + 1] == rows[..k] + [rows[k]];
      es := es + [Step(rows[k])];
    }
    assert rows[..|rows|] == rows;
  }

  method StreamEvents<T>(polls: seq<Poll<T>>) returns (es: seq<Yield<T>>)
    requires polls != []
    ensures es == Streamed(polls, 0, 0)
  {
    es := [];
    var sent: nat := 0;
    for i := 0 to |polls|
      invariant StreamedSoFar(polls, i, sent, es)
    {
      var rows := Unsent(polls[i], sent);
      StreamMore(polls, i, sent, es);
      es := SendRows(es, rows);
      sent := sent + |rows|;
      AfterSend(polls, i, sent, es);
      if polls[i].terminal {
        es := es + [Done(polls[i].status)];
        return;
      }
    }
    StreamEnd(polls, sent, es);
    es := es + [Timeout(polls[|polls| - 1].status)];
  }

  /** What is left to yield completes what was yielded. */
  ghost predicate StreamedSoFar<T>(polls: seq<Poll<T>>, i: nat, sent: nat, es: seq<Yield<T>>)
    requires i <= |polls| && polls != []
  {
    if i < |polls| then es + Streamed(polls, i, sent) == Streamed(polls, 0, 0)
    else !polls[|polls| - 1].terminal && es + [Closing(polls[|polls| - 1])] == Streamed(polls, 0, 0)
  }

  lemma StreamMore<T>(polls: seq<Poll<T>>, i: nat, sent: nat, es: seq<Yield<T>>)
    requires i < |polls| && StreamedSoFar(polls, i, sent, es)
    ensures var rows := Unsent(polls[i], sent);
            es + StepsOf(rows) + AfterRows(polls, i, sent + |rows|) == Streamed(polls, 0, 0)
  {
    var rows := Unsent(polls[i], sent);
    Associative(es, StepsOf(rows), AfterRows(polls, i, sent + |rows|));
  }

  lemma AfterSend<T>(polls: seq<Poll<T>>, i: nat, sent: nat, es: seq<Yield<T>>)
    requires i < |polls| && es + AfterRows(polls, i, sent) == Streamed(polls, 0, 0)
    ensures polls[i].terminal ==> es + [Done(polls[i].status)] == Streamed(polls, 0, 0)
    ensures !polls[i].terminal ==> StreamedSoFar(polls, i + 1, sent, es)
  {}

  lemma StreamEnd<T>(polls: seq<Poll<T>>, sent: nat, es: seq<Yield<T>>)
    requires polls != [] && StreamedSoFar(polls, |polls|, sent, es)
    ensures es + [Timeout(polls[|polls| - 1].status)] == Streamed(polls, 0, 0)
  {}

  lemma Associative<T>(a: seq<T>, b: seq<T>, c: seq<T>)
    ensures a + b + c == a + (b + c)
  {}

  /** Within one attempt the stream is every row read, each once and in order, then the terminal
      status, or a timeout when the polls run out. */
  lemma {:induction false} OneAttemptStream<T>(polls: seq<Poll<T>>, i: nat, sent: nat)
    requires i < |polls| && OneAttempt(polls) && sent <= |polls[i].steps|
    ensures var p := polls[LastPoll(polls, i)];
            && polls[i].steps <= p.steps
            && Streamed(polls, i, sent) == StepsOf(p.steps[sent..]) + [Closing(p)]
    decreases |polls| - i
  {
    var head, rows := polls[i].steps, Unsent(polls[i], sent);
    if polls[i].terminal || i + 1 == |polls| {
      assert rows == head[sent..];
    } else {
      OneAttemptStream(polls, i + 1, |head|);
      var p := polls[LastPoll(polls, i + 1)];
      RowsJoin(head, p.steps, sent, [Closing(p)]);
    }
  }

  lemma RowsJoin<T>(head: seq<T>, all: seq<T>, sent: nat, end: seq<Yield<T>>)
    requires head <= all && sent <= |head|
    ensures StepsOf(all[sent..]) + end == StepsOf(head[sent..]) + (StepsOf(all[|head|..]) + end)
  {
    assert all[sent..] == head[sent..] + all[|head|..];
    StepsOfConcat(head[sent..], all[|head|..]);
    Associative(StepsOf(head[sent..]), StepsOf(all[|head|..]), end);
  }

  /** End to end: a stream within one attempt, printed, cut up anywhere and read by the page, shows
      every row the server read, and the terminal status exactly when the server saw one. */
  lemma EndToEnd<T(!new)>(c: Codec<T>, polls: seq<Poll<T>>, chunks: seq<string>)
    requires Faithful(c) && polls != [] && OneAttempt(polls) &&
               Concat(chunks) == PrintAll(c, WireAll(Streamed(polls, 0, 0)))
    ensures var p := polls[LastPoll(polls, 0)];
            PageOf(c, Concat(chunks)) == Page(p.steps, if p.terminal then Some(p.status) else None)
  {
    var p := polls[LastPoll(polls, 0)];
    OneAttemptStream(polls, 0, 0);
    assert p.steps[0..] == p.steps;
    var ys := StepsOf(p.steps) + [Closing(p)];
    WireNames(ys);
    PrintThenParse(c, WireAll(ys));
    ShowClosed(p);
  }

  lemma WireNames<T>(ys: seq<Yield<T>>)
    ensures forall e :: e in WireAll(ys) ==> PlainName(e.name)
  {
    PlainNames();
  }

  lemma PlainNames()
    ensures PlainName("step") && PlainName("done") && PlainName("timeout")
  {}

  lemma ShowClosed<T>(p: Poll<T>)
    ensures ShowAll(Page([], None), WireAll(StepsOf(p.steps) + [Closing(p)])) ==
              Page(p.steps, if p.terminal then Some(p.status) else None)
  {
    var blank: Page<T> := Page([], None);
    var last := Wire(Closing(p));
    assert WireAll(StepsOf(p.steps) + [Closing(p)]) == WireAll(StepsOf(p.steps)) + [last];
    ShowAllConcat(blank, WireAll(StepsOf(p.steps)), [last]);
    ShowSteps(blank, p.steps);
    assert [] + p.steps == p.steps;
    var page := Page(p.steps, None);
    assert [last][1..] == [];
    assert ShowAll(page, [last]) == ShowAll(Show(page, last), []);
  }

  lemma {:induction false} ShowSteps<T>(page: Page<T>, steps: seq<T>)
    requires page.status.None?
    ensures ShowAll(page, WireAll(StepsOf(steps))) == page.(steps := page.steps + steps)
    decreases |steps|
  {
    if steps == [] {
      assert page.steps + steps == page.steps;
    } else {
      var es := WireAll(StepsOf(steps));
      assert es[1..] == WireAll(StepsOf(steps[1..]));
      ShowSteps(Show(page, es[0]), steps[1..]);
      assert page.steps + [steps[0]] + steps[1..] == page.steps + steps;
    }
  }

  /** The data of the step events before the first done event. */
  function StepsBeforeDone<T>(es: seq<Event<T>>): seq<T> {
    if es == [] || es[0].name == "done" then []
    else (if es[0].name == "step" then [es[0].data] else []) + StepsBeforeDone(es[1..])
  }

  /** The data of the first done event. */
  function FirstDone<T>(es: seq<Event<T>>): Option<T> {
    if es == [] then None else if es[0].name == "done" then Some(es[0].data) else FirstDone(es[1..])
  }

  lemma {:induction false} ShowUpToDone<T>(page: Page<T>, es: seq<Event<T>>)
    requires page.status.None?
    ensures ShowAll(page, es) == Page(page.steps + StepsBeforeDone(es), FirstDone(es))
    decreases |es|
  {
    if es == [] {
      assert page.steps + [] == page.steps;
    } else if es[0].name == "done" {
      ShowAfterDone(Show(page, es[0]), es[1..]);
      assert page.steps + [] == page.steps;
    } else {
      var next := Show(page, es[0]);
      ShowUpToDone(next, es[1..]);
      assert next.steps == page.steps + (if es[0].name == "step" then [es[0].data] else []);
      Associative(page.steps, if es[0].name == "step" then [es[0].data] else [], StepsBeforeDone(es[1..]));
    }
  }

  /** The round trip: print any events, cut the text into any chunks, and the page shows exactly the
      data of the step events before the first done event, and of that done event. */
  lemma RoundTrip<T(!new)>(c: Codec<T>, es: seq<Event<T>>, chunks: seq<string>)
    requires Faithful(c) && (forall e :: e in es ==> PlainName(e.name)) && Concat(chunks) == PrintAll(c, es)
    ensures PageOf(c, Concat(chunks)) == Page(StepsBeforeDone(es), FirstDone(es))
  {
    PrintThenParse(c, es);
    ShowUpToDone(Page([], None), es);
    assert [] + StepsBeforeDone(es) == StepsBeforeDone(es);
  }

  // ----- any polls, exactly -----

  function Longer(a: nat, b: nat): nat { if a >= b then a else b }

  /** The position after the first `n` polls: the longest list read so far. */
  function Position<T>(polls: seq<Poll<T>>, n: nat): nat
    requires n <= |polls|
  { if n == 0 then 0 else Longer(Position(polls, n - 1), |polls[n - 1].steps|) }

  /** The rows sent by the first `n` polls. */
  function Sent<T>(polls: seq<Poll<T>>, n: nat): (rows: seq<T>)
    requires n <= |polls|
    ensures |rows| == Position(polls, n)
  { if n == 0 then [] else Sent(polls, n - 1) + Unsent(polls[n - 1], Position(polls, n - 1)) }

  /** The poll that was first to read a list longer than `k`, and so sent the row at `k`. */
  ghost predicate Sends<T>(polls: seq<Poll<T>>, i: nat, k: nat)
    requires i < |polls|
  { Position(polls, i) <= k < |polls[i].steps| }

  lemma SentByLast<T>(polls: seq<Poll<T>>, n: nat, k: nat)
    requires 0 < n <= |polls| && Sends(polls, n - 1, k)
    ensures k < |Sent(polls, n)| && Sent(polls, n)[k] == polls[n - 1].steps[k]
  {
    var front, all := Sent(polls, n - 1), polls[n - 1].steps;
    assert Sent(polls, n) == front + all[|front|..];
  }

  lemma SentBefore<T>(polls: seq<Poll<T>>, n: nat, k: nat)
    requires 0 < n <= |polls| && k < |Sent(polls, n - 1)|
    ensures k < |Sent(polls, n)| && Sent(polls, n)[k] == Sent(polls, n - 1)[k]
  {
    var front, rows := Sent(polls, n - 1), Unsent(polls[n - 1], Position(polls, n - 1));
    assert Sent(polls, n) == front + rows;
  }

  /** Every row sent is the one that the sending poll read at its position. */
  lemma {:induction false} SentRow<T>(polls: seq<Poll<T>>, n: nat, i: nat, k: nat)
    requires i < n <= |polls| && Sends(polls, i, k)
    ensures k < |Sent(polls, n)| && Sent(polls, n)[k] == polls[i].steps[k]
  {
    if i < n - 1 {
      SentRow(polls, n - 1, i, k);
      SentBefore(polls, n, k);
    } else {
      SentByLast(polls, n, k);
    }
  }

  lemma {:induction false} SomeoneSends<T>(polls: seq<Poll<T>>, n: nat, k: nat) returns (i: nat)
    requires n <= |polls| && k < Position(polls, n)
    ensures i < n && Sends(polls, i, k)
  {
    if k < Position(polls, n - 1) {
      i := SomeoneSends(polls, n - 1, k);
    } else {
      i := n - 1;
    }
  }

  lemma {:induction false} PositionCovers<T>(polls: seq<Poll<T>>, n: nat, i: nat)
    requires i < n <= |polls|
    ensures |polls[i].steps| <= Position(polls, n)
  {
    if i < n - 1 {
      PositionCovers(polls, n - 1, i);
    }
  }

  lemma {:induction false} PositionWithin<T>(polls: seq<Poll<T>>, n: nat, most: nat)
    requires n <= |polls| && forall i :: 0 <= i < n ==> |polls[i].steps| <= most
    ensures Position(polls, n) <= most
  {
    if n > 0 {
      PositionWithin(polls, n - 1, most);
    }
  }

  /** From poll `i` on the loop completes what was sent before it to this. */
  ghost predicate Completes<T>(polls: seq<Poll<T>>, i: nat, all: seq<Yield<T>>)
    requires i < |polls|
  { StepsOf(Sent(polls, i)) + Streamed(polls, i, Position(polls, i)) == all }

  lemma JoinYields<T>(before: seq<T>, rows: seq<T>, after: seq<Yield<T>>)
    ensures StepsOf(before) + (StepsOf(rows) + after) == StepsOf(before + rows) + after
  {
    StepsOfConcat(before, rows);
    Associative(StepsOf(before), StepsOf(rows), after);
  }

  lemma StreamedUnfolds<T>(polls: seq<Poll<T>>, i: nat)
    requires i < |polls|
    ensures var rows := Unsent(polls[i], Position(polls, i));
            && Sent(polls, i + 1) == Sent(polls, i) + rows
            && Position(polls, i + 1) == Position(polls, i) + |rows|
            && Streamed(polls, i, Position(polls, i)) == StepsOf(rows) + AfterRows(polls, i, Position(polls, i + 1))
  {}

  lemma OnePollSent<T>(polls: seq<Poll<T>>, i: nat)
    requires i < |polls|
    ensures StepsOf(Sent(polls, i)) + Streamed(polls, i, Position(polls, i)) ==
            StepsOf(Sent(polls, i + 1)) + AfterRows(polls, i, Position(polls, i + 1))
  {
    StreamedUnfolds(polls, i);
    JoinYields(Sent(polls, i), Unsent(polls[i], Position(polls, i)), AfterRows(polls, i, Position(polls, i + 1)));
  }

  lemma LastCompletes<T>(polls: seq<Poll<T>>, i: nat)
    requires i < |polls| && (polls[i].terminal || i + 1 == |polls|)
    ensures Completes(polls, i, StepsOf(Sent(polls, i + 1)) + [Closing(polls[i])])
  {
    OnePollSent(polls, i);
  }

  lemma EarlierCompletes<T>(polls: seq<Poll<T>>, i: nat, all: seq<Yield<T>>)
    requires i + 1 < |polls| && !polls[i].terminal && Completes(polls, i + 1, all)
    ensures Completes(polls, i, all)
  {
    OnePollSent(polls, i);
  }

  /** Whatever the polls read, the loop yields the rows sent up to the poll it stops at, then the end. */
  lemma {:induction false} StreamedIsSent<T>(polls: seq<Poll<T>>, i: nat)
    requires i < |polls|
    ensures var last := LastPoll(polls, i);
            Completes(polls, i, StepsOf(Sent(polls, last + 1)) + [Closing(polls[last])])
    decreases |polls| - i
  {
    if polls[i].terminal || i + 1 == |polls| {
      LastCompletes(polls, i);
    } else {
      var last := LastPoll(polls, i + 1);
      StreamedIsSent(polls, i + 1);
      EarlierCompletes(polls, i, StepsOf(Sent(polls, last + 1)) + [Closing(polls[last])]);
    }
  }

  /** The last poll is at least as long as every earlier one, and agrees with each on the rows it sent. */
  ghost predicate LastCovers<T>(polls: seq<Poll<T>>, last: nat)
    requires last < |polls|
  {
    && (forall i :: 0 <= i <= last ==> |polls[i].steps| <= |polls[last].steps|)
    && (forall i: nat, k: nat :: i <= last && Sends(polls, i, k) && k < |polls[last].steps| ==>
          polls[i].steps[k] == polls[last].steps[k])
  }

  lemma SentIfCovers<T>(polls: seq<Poll<T>>, last: nat)
    requires last < |polls| && LastCovers(polls, last)
    ensures Sent(polls, last + 1) == polls[last].steps
  {
    var shown, rows := Sent(polls, last + 1), polls[last].steps;
    PositionWithin(polls, last + 1, |rows|);
    PositionCovers(polls, last + 1, last);
    forall k | 0 <= k < |rows| ensures shown[k] == rows[k] {
      SentAt(polls, last, k);
    }
  }

  lemma SentAt<T>(polls: seq<Poll<T>>, last: nat, k: nat)
    requires last < |polls| && LastCovers(polls, last)
    requires k < |polls[last].steps| && k < Position(polls, last + 1)
    ensures Sent(polls, last + 1)[k] == polls[last].steps[k]
  {
    var i := SomeoneSends(polls, last + 1, k);
    SentRow(polls, last + 1, i, k);
    assert polls[i].steps[k] == polls[last].steps[k];
  }

  lemma CoversIfSent<T>(polls: seq<Poll<T>>, last: nat)
    requires last < |polls| && Sent(polls, last + 1) == polls[last].steps
    ensures LastCovers(polls, last)
  {
    forall i | 0 <= i <= last ensures |polls[i].steps| <= |polls[last].steps| {
      PositionCovers(polls, last + 1, i);
    }
    forall i: nat, k: nat | i <= last && Sends(polls, i, k) && k < |polls[last].steps|
      ensures polls[i].steps[k] == polls[last].steps[k]
    {
      SentRow(polls, last + 1, i, k);
    }
  }

  lemma StepsOfInjective<T>(xs: seq<T>, ys: seq<T>, end: Yield<T>)
    ensures StepsOf(xs) + [end] == StepsOf(ys) + [end] <==> xs == ys
  {
    if StepsOf(xs) + [end] == StepsOf(ys) + [end] {
      assert |xs| == |StepsOf(xs) + [end]| - 1 && |ys| == |StepsOf(ys) + [end]| - 1;
      forall k | 0 <= k < |xs| ensures xs[k] == ys[k] {
        assert (StepsOf(xs) + [end])[k] == Step(xs[k]) && (StepsOf(ys) + [end])[k] == Step(ys[k]);
      }
    }
  }

  /** The stream shows the rows of the run as the last poll read them if and only if that list is at least
      as long as every earlier one and agrees with each on the rows it was the first to have. */
  lemma StreamShowsLastExactly<T>(polls: seq<Poll<T>>)
    requires polls != []
    ensures var last := LastPoll(polls, 0);
            Streamed(polls, 0, 0) == StepsOf(polls[last].steps) + [Closing(polls[last])] <==> LastCovers(polls, last)
  {
    var last := LastPoll(polls, 0);
    StreamedIsSent(polls, 0);
    assert [] + Streamed(polls, 0, 0) == Streamed(polls, 0, 0);
    StepsOfInjective(Sent(polls, last + 1), polls[last].steps, Closing(polls[last]));
    if Sent(polls, last + 1) == polls[last].steps {
      CoversIfSent(polls, last);
    }
    if LastCovers(polls, last) {
      SentIfCovers(polls, last);
    }
  }
}
