/** The events a session pushes to its client and their wire rendering.

    The event classes of the application are not part of this model; their
    rendering is stood in for by the text/event-stream framing of section
    9.2 of the WHATWG HTML Living Standard: one "event:" line naming the
    event, one "data:" line carrying its payload, and a blank line that
    dispatches it.  The close event is the distinguished frame named
    "close" that tells the client the stream has ended. */
module MessageProtocol {

  datatype Option<T> = None | Some(value: T)

  /** A data event with its event name and payload, or the close event. */
  datatype Event = Message(name: string, data: string) | Close

  const CloseName: string := "close"

  /** No line break of the event-stream format occurs in s. */
  predicate SingleLine(s: string) {
    forall i :: 0 <= i < |s| ==> s[i] != '\n' && s[i] != '\r'
  }

  /** A data event the client can tell apart from every other event:
      both fields fit on one line, and it is not named like the close event. */
  predicate WellFormed(e: Event) {
    match e
    case Message(name, data) => SingleLine(name) && SingleLine(data) && name != CloseName
    case Close => true
  }

  function Field(key: string, value: string): string {
    key + ": " + value + "\n"
  }

  /** The chunk body the session sends for one event. */
  function Build(e: Event): string {
    match e
    case Message(name, data) => Field("event", name) + Field("data", data) + "\n"
    case Close => Field("event", CloseName) + Field("data", "") + "\n"
  }

  /** Every frame ends with the blank line that dispatches its event, so the
      frames of consecutive chunks never run together. */
  lemma BuildEndsWithBlankLine(e: Event)
    ensures |Build(e)| >= 2 && Build(e)[|Build(e)| - 2..] == "\n\n"
  {
  }

  /** Splits s at its first line feed into the line before it and the rest after it. */
  function SplitLine(s: string): (r: Option<(string, string)>)
    ensures r.Some? ==> s == r.value.0 + "\n" + r.value.1
    ensures r.Some? ==> forall i :: 0 <= i < |r.value.0| ==> r.value.0[i] != '\n'
    ensures r.None? ==> forall i :: 0 <= i < |s| ==> s[i] != '\n'
  {
    if s == [] then None
    else if s[0] == '\n' then Some(([], s[1..]))
    else
      match SplitLine(s[1..])
      case None => None
      case Some(p) => Some(([s[0]] + p.0, p.1))
  }

  /** How a client reads one chunk back into the event it carries;
      None for a chunk that is not a single event frame. */
  function Parse(frame: string): Option<Event> {
    match SplitLine(frame)
    case None => None
    case Some(first) =>
      var (line1, rest1) := first;
      if |line1| < 7 || line1[..7] != "event: " then None
      else
        match SplitLine(rest1)
        case None => None
        case Some(second) =>
          var (line2, rest2) := second;
          if |line2| < 6 || line2[..6] != "data: " || rest2 != "\n" then None
          else
            var name := line1[7..];
            var data := line2[6..];
            if name == CloseName then (if data == "" then Some(Close) else None)
            else Some(Message(name, data))
  }

  /** A line without a line feed is recovered exactly by SplitLine. */
  lemma {:induction false} SplitLineOf(line: string, rest: string)
    requires forall i :: 0 <= i < |line| ==> line[i] != '\n'
    ensures SplitLine(line + "\n" + rest) == Some((line, rest))
  {
    if line == [] {
      assert line + "\n" + rest == ['\n'] + rest;
    } else {
      var s := line + "\n" + rest;
      assert s[0] == line[0];
      assert s[1..] == line[1..] + "\n" + rest;
      SplitLineOf(line[1..], rest);
      assert [line[0]] + line[1..] == line;
    }
  }

  /** A key prefix followed by a single-line value holds no line feed. */
  lemma KeyedLineHasNoFeed(key: string, value: string)
    requires forall i :: 0 <= i < |key| ==> key[i] != '\n'
    requires SingleLine(value)
    ensures forall i :: 0 <= i < |key + value| ==> (key + value)[i] != '\n'
  {
  }

  /** How the client reads a frame with single-line fields. */
  lemma ParseFrame(name: string, data: string)
    requires SingleLine(name) && SingleLine(data)
    ensures Parse(Field("event", name) + Field("data", data) + "\n")
         == if name == CloseName then (if data == "" then Some(Close) else None)
            else Some(Message(name, data))
  {
    var line1 := "event: " + name;
    var line2 := "data: " + data;
    var rest1 := line2 + "\n" + "\n";
    assert Field("event", name) + Field("data", data) + "\n" == line1 + "\n" + rest1;
    KeyedLineHasNoFeed("event: ", name);
    KeyedLineHasNoFeed("data: ", data);
    SplitLineOf(line1, rest1);
    SplitLineOf(line2, "\n");
    assert line1[..7] == "event: " && line1[7..] == name;
    assert line2[..6] == "data: " && line2[6..] == data;
  }

  /** The client reads back exactly the event that was rendered. */
  lemma ParseBuild(e: Event)
    requires WellFormed(e)
    ensures Parse(Build(e)) == Some(e)
  {
    match e
    case Message(name, data) => ParseFrame(name, data);
    case Close => ParseFrame(CloseName, "");
  }

  /** Without well-formedness the close frame is not unique: a data event named
      like the close event, with empty data, renders exactly as the close event. */
  lemma CloseNamedDataCollides()
    ensures Build(Message(CloseName, "")) == Build(Close)
    ensures !WellFormed(Message(CloseName, ""))
  {
  }

  /** Rendering is one-to-one on well-formed events, and no data event renders
      to the close frame, so the client always recognises the end of the stream. */
  lemma BuildDistinguishes(a: Event, b: Event)
    requires WellFormed(a) && WellFormed(b)
    ensures Build(a) == Build(b) <==> a == b
    ensures a.Message? ==> Build(a) != Build(Close)
  {
    ParseBuild(a);
    ParseBuild(b);
    ParseBuild(Close);
  }
}
