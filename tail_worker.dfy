/**
 * The background worker that follows the server log: it announces the file
 * it watches, and for every line appended to the file it strips the line,
 * skips it when blank, reports it, and when the line is a chat message
 * reports the parsed chat and hands it to the window.
 *
 * Opening the file, seeking to its end, polling with `readline` and sleeping
 * are left to the caller: the worker is given the lines it read, in order.
 */
module TailWorker {
  import opened Wrappers
  import opened Text
  import opened ChatParser

  /** What the worker emits: a line for the application log, or a chat for the window. */
  datatype Event = Log(text: string) | NewChat(platformId: string, user: string, message: string)

  const StartPrefix: string := "Iniciando vigilancia de: "
  const DetectedPrefix: string := "Linea detectada: "
  const NotFoundPrefix: string := "El archivo no fue encontrado: "

  /** The log line that reports a parsed chat. */
  function ParsedText(c: ChatLine): string {
    "Chat parseado -> platform: " + c.platformId + ", user: " + c.user + ", message: " + c.message
  }

  /**
   * The events of a stripped line `s` that is not blank and whose parse is
   * `parsed`: the report of the line, followed, when it parsed as a chat, by
   * the report of the chat and the chat itself.
   */
  function Report(s: string, parsed: Option<ChatLine>): seq<Event> {
    match parsed
    case None => [Log(DetectedPrefix + s)]
    case Some(c) => [Log(DetectedPrefix + s), Log(ParsedText(c)), NewChat(c.platformId, c.user, c.message)]
  }

  /** The events one line read from the file produces: none when it is blank once stripped, its report otherwise. */
  function LineEvents(line: string): seq<Event> {
    var s := Strip(line, Whitespace);
    if s == [] then [] else Report(s, Parse(s))
  }

  /** `f` applied to each element in turn, the results concatenated in order. */
  function Flatten<T, U>(f: T -> seq<U>, xs: seq<T>): seq<U>
    decreases |xs|
  {
    if xs == [] then [] else Flatten(f, xs[..|xs| - 1]) + f(xs[|xs| - 1])
  }

  /** The events of the lines read, in the order they were read. */
  function LinesEvents(lines: seq<string>): seq<Event> {
    Flatten(LineEvents, lines)
  }

  /** Everything the worker emits over its run, given whether the file could be opened. */
  function WorkerEvents(filepath: string, fileExists: bool, lines: seq<string>): seq<Event> {
    [Log(StartPrefix + filepath)] + if fileExists then LinesEvents(lines) else [Log(NotFoundPrefix + filepath)]
  }

  /**
   * One pass of the worker's loop over a line it read: strip it, skip it
   * when blank, report it, and report and hand over the chat it holds.
   */
  method Step(raw: string) returns (events: seq<Event>)
    ensures events == LineEvents(raw)
  {
    var line := Strip(raw, Whitespace);
    if line == [] {
      return [];
    }
    var m := Parse(line);
    events := Report(line, m);
  }

  /** The worker's loop over the lines it read, in order. */
  method Follow(lines: seq<string>) returns (events: seq<Event>)
    ensures events == LinesEvents(lines)
  {
    events := [];
    var i := 0;
    while i < |lines|
      invariant 0 <= i <= |lines|
      invariant events == LinesEvents(lines[..i])
    {
      var more := Step(lines[i]);
      FlattenStep(LineEvents, lines, i, events, more);
      events := events + more;
      i := i + 1;
    }
    assert lines[..i] == lines;
  }

  /**
   * The worker's run: the announcement, then, when the file exists, the
   * events of each line read, line by line; a missing file ends the run
   * after reporting it.
   */
  method Run(filepath: string, fileExists: bool, lines: seq<string>) returns (events: seq<Event>)
    ensures events == WorkerEvents(filepath, fileExists, lines)
  {
    events := [Log(StartPrefix + filepath)];
    if fileExists {
      var read := Follow(lines);
      events := events + read;
    } else {
      events := events + [Log(NotFoundPrefix + filepath)];
    }
  }

  // ---------------------------------------------------------------------
  // What the run reports

  /** Flattening one element more of `xs` adds its results at the end. */
  lemma FlattenPrefix<T, U>(f: T -> seq<U>, xs: seq<T>, k: nat)
    requires k < |xs|
    ensures Flatten(f, xs[..k + 1]) == Flatten(f, xs[..k]) + f(xs[k])
  {
    assert xs[..k + 1][..k] == xs[..k];
  }

  /** The step of a loop that flattens `xs` one element at a time. */
  lemma FlattenStep<T, U>(f: T -> seq<U>, xs: seq<T>, k: nat, done: seq<U>, more: seq<U>)
    requires k < |xs| && done == Flatten(f, xs[..k]) && more == f(xs[k])
    ensures done + more == Flatten(f, xs[..k + 1])
  {
    FlattenPrefix(f, xs, k);
  }

  /** Flattening more elements only adds results after those already there. */
  lemma {:induction false} FlattenAppend<T, U>(f: T -> seq<U>, a: seq<T>, b: seq<T>)
    ensures Flatten(f, a + b) == Flatten(f, a) + Flatten(f, b)
    decreases |b|
  {
    if b == [] {
      assert a + b == a;
    } else {
      var b', x := b[..|b| - 1], b[|b| - 1];
      assert (a + b)[..|a + b| - 1] == a + b';
      assert (a + b)[|a + b| - 1] == x;
      calc {
        Flatten(f, a + b);
        Flatten(f, a + b') + f(x);
        { FlattenAppend(f, a, b'); }
        Flatten(f, a) + Flatten(f, b') + f(x);
        Flatten(f, a) + Flatten(f, b);
      }
    }
  }

  /** Flattening three elements. */
  lemma FlattenThree<T, U>(f: T -> seq<U>, a: T, b: T, c: T)
    ensures Flatten(f, [a, b, c]) == f(a) + f(b) + f(c)
  {
    assert [a, b, c][..2] == [a, b];
    assert [a, b][..1] == [a];
    assert [a][..0] == [];
    calc {
      Flatten(f, [a, b, c]);
      Flatten(f, [a, b]) + f(c);
      Flatten(f, [a]) + f(b) + f(c);
      { assert Flatten(f, [a]) == [] + f(a) == f(a); }
      f(a) + f(b) + f(c);
    }
  }

  /** Flattening the results of `f` with `g` is flattening with `h` when `h` does that for each element. */
  lemma {:induction false} FlattenCompose<T, U, V>(f: T -> seq<U>, g: U -> seq<V>, h: T -> seq<V>, xs: seq<T>)
    requires forall x :: Flatten(g, f(x)) == h(x)
    ensures Flatten(g, Flatten(f, xs)) == Flatten(h, xs)
    decreases |xs|
  {
    if xs != [] {
      var init, x := xs[..|xs| - 1], xs[|xs| - 1];
      FlattenCompose(f, g, h, init);
      FlattenAppend(g, Flatten(f, init), f(x));
    }
  }

  /** Reading more lines only adds events after those already emitted. */
  lemma LinesEventsAppend(a: seq<string>, b: seq<string>)
    ensures LinesEvents(a + b) == LinesEvents(a) + LinesEvents(b)
  {
    FlattenAppend(LineEvents, a, b);
  }

  /** The chat an event hands to the window, if it is one. */
  function ChatOf(e: Event): seq<ChatLine> {
    if e.NewChat? then [ChatLine(e.platformId, e.user, e.message)] else []
  }

  /** The chat the parser finds in a line once stripped, if it is not blank. */
  function LineChat(line: string): seq<ChatLine> {
    var s := Strip(line, Whitespace);
    if s != [] && Parse(s).Some? then [Parse(s).value] else []
  }

  /** The chats a report hands over: the parsed chat, if any. */
  lemma ReportChats(s: string, parsed: Option<ChatLine>)
    ensures Flatten(ChatOf, Report(s, parsed)) == if parsed.Some? then [parsed.value] else []
  {
    var events := Report(s, parsed);
    if parsed.Some? {
      FlattenThree(ChatOf, events[0], events[1], events[2]);
      assert events == [events[0], events[1], events[2]];
    } else {
      assert events[..0] == [];
    }
  }

  /**
   * The window is handed exactly the chats the parser finds in the lines,
   * in the order of the lines, and nothing else.
   */
  lemma ChatsOfLines(lines: seq<string>)
    ensures Flatten(ChatOf, LinesEvents(lines)) == Flatten(LineChat, lines)
  {
    forall line | true ensures Flatten(ChatOf, LineEvents(line)) == LineChat(line) {
      var s := Strip(line, Whitespace);
      if s != [] {
        ReportChats(s, Parse(s));
      }
    }
    FlattenCompose(LineEvents, ChatOf, LineChat, lines);
  }

  /** The line an event reports as detected, without the report's prefix, if it is such a report. */
  function DetectedOf(e: Event): seq<string> {
    if e.Log? && StartsWith(e.text, DetectedPrefix) then [e.text[|DetectedPrefix|..]] else []
  }

  /** A line once stripped, if it is not blank. */
  function NonBlankOf(line: string): seq<string> {
    var s := Strip(line, Whitespace);
    if s != [] then [s] else []
  }

  /** A report reports its line as detected, once. */
  lemma ReportDetected(s: string, parsed: Option<ChatLine>)
    ensures Flatten(DetectedOf, Report(s, parsed)) == [s]
  {
    var events := Report(s, parsed);
    var first := DetectedPrefix + s;
    assert StartsWith(first, DetectedPrefix) && first[|DetectedPrefix|..] == s;
    assert DetectedOf(events[0]) == [s];
    if parsed.Some? {
      assert events[1].text[0] == 'C';
      assert DetectedOf(events[1]) == [];
      FlattenThree(DetectedOf, events[0], events[1], events[2]);
      assert events == [events[0], events[1], events[2]];
    } else {
      assert events[..0] == [];
    }
  }

  /**
   * Every line that is not blank once stripped is reported as detected
   * exactly once, in the order the lines were read, and blank lines are
   * not reported.
   */
  lemma DetectedOfLines(lines: seq<string>)
    ensures Flatten(DetectedOf, LinesEvents(lines)) == Flatten(NonBlankOf, lines)
  {
    forall line | true ensures Flatten(DetectedOf, LineEvents(line)) == NonBlankOf(line) {
      var s := Strip(line, Whitespace);
      if s != [] {
        ReportDetected(s, Parse(s));
      }
    }
    FlattenCompose(LineEvents, DetectedOf, NonBlankOf, lines);
  }

  /** A missing file is reported right after the announcement, and no line is read. */
  lemma MissingFile(filepath: string, lines: seq<string>)
    ensures WorkerEvents(filepath, false, lines) == [Log(StartPrefix + filepath), Log(NotFoundPrefix + filepath)]
    ensures Flatten(ChatOf, WorkerEvents(filepath, false, lines)) == []
  {
    var events := WorkerEvents(filepath, false, lines);
    assert events[..1][..0] == [];
    assert Flatten(ChatOf, events[..1]) == [];
  }
}
