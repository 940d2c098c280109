/** The calendar muxer: it scrapes the components out of one iCalendar object
    (RFC 5545, section 3.4), wraps them in a freshly generated header
    (sections 3.6, 3.7.3 and 3.7.4) and maps the outcome to an HTTP reply. */
module Muxer {
  import opened Text
  import opened Config

  // ---------------------------------------------------------------------------
  // Errors

  /** The errors muxing can report. */
  datatype ParserError = InvalidCalendar | MalformedCalendar

  datatype Result<T> = Ok(value: T) | Err(error: ParserError)

  /** The error's display text, sent to the client as the reply body. */
  function Display(e: ParserError): (msg: string)
    ensures |msg| > 0
  {
    match e
    case InvalidCalendar => "no valid calendar object was present"
    case MalformedCalendar => "a calendar component is malformed"
  }

  // ---------------------------------------------------------------------------
  // Content lines

  /** The value of a "NAME:VALUE" content line: everything after its first ':'. */
  function ParseProperty(property: string): (r: Result<string>)
    ensures r.Ok? <==> ':' in property
    ensures r.Err? ==> r.error == MalformedCalendar
    ensures r.Ok? ==>
      var k := |property| - |r.value| - 1;
      0 <= k && property[k] == ':' && ':' !in property[..k] && property[k + 1..] == r.value
  {
    var k := IndexOf(property, ':');
    if k == |property| then Err(MalformedCalendar) else Ok(property[k + 1..])
  }

  const CalendarBegin := "BEGIN:VCALENDAR"
  const CalendarEnd := "END:VCALENDAR"

  /** A line that opens a component: its name starts with a 'V'. */
  predicate IsBeginLine(l: string) {
    StartsWith(l, "BEGIN:V")
  }

  /** A line that closes a component. */
  predicate IsEndLine(l: string) {
    StartsWith(l, "END:V")
  }

  predicate IsMarker(l: string) {
    IsBeginLine(l) || IsEndLine(l)
  }

  /** The component name a BEGIN:V or END:V line carries. */
  function MarkerName(l: string): string
    requires IsMarker(l)
  {
    if IsBeginLine(l) then l[|"BEGIN:"|..] else l[|"END:"|..]
  }

  /** On a BEGIN:V or END:V line, `parse_property` cannot fail and yields the
      component name. */
  lemma ParsePropertyOfMarker(l: string)
    requires IsMarker(l)
    ensures ParseProperty(l) == Ok(MarkerName(l))
    ensures MarkerName(l) != ""
  {
    var p := if IsBeginLine(l) then "BEGIN:V" else "END:V";
    assert l[..|p|] == p;
    var colon := |p| - 2;
    assert l[colon] == ':';
    assert forall i | 0 <= i < colon :: l[i] == p[i] != ':';
    assert IndexOf(l, ':') == colon;
  }

  // ---------------------------------------------------------------------------
  // What scraping means, stated over the interior lines of a calendar

  /** The component open after reading `ls`: the name on the last BEGIN:V line
      when no END:V line follows it, and "" otherwise. */
  ghost function OpenName(ls: seq<string>): string {
    if ls == [] then ""
    else
      var l := ls[|ls| - 1];
      if IsEndLine(l) then ""
      else if IsBeginLine(l) then MarkerName(l)
      else OpenName(ls[..|ls| - 1])
  }

  /** Line `l` is acceptable when `open` is the open component: an END:V line
      must close exactly `open`, and a BEGIN:V line needs no component open. */
  ghost predicate LineAccepted(open: string, l: string) {
    && (IsEndLine(l) ==> MarkerName(l) == open)
    && (IsBeginLine(l) ==> open == "")
  }

  /** Every line of `ls` is acceptable after the lines before it. */
  ghost predicate Accepts(ls: seq<string>) {
    ls == [] || (Accepts(ls[..|ls| - 1]) && LineAccepted(OpenName(ls[..|ls| - 1]), ls[|ls| - 1]))
  }

  /** Whether a line read while `open` is open is copied to the output. */
  ghost predicate Captured(open: string, l: string) {
    IsMarker(l) || open != ""
  }

  /** The lines of `ls`, in order, that are component markers or lie inside an
      open component. */
  ghost function KeptLines(ls: seq<string>): seq<string> {
    if ls == [] then []
    else
      var p, l := ls[..|ls| - 1], ls[|ls| - 1];
      if Captured(OpenName(p), l) then KeptLines(p) + [l] else KeptLines(p)
  }

  /** The other lines of `ls`: the properties of the calendar object itself. */
  ghost function RootLines(ls: seq<string>): seq<string> {
    if ls == [] then []
    else
      var p, l := ls[..|ls| - 1], ls[|ls| - 1];
      if Captured(OpenName(p), l) then RootLines(p) else RootLines(p) + [l]
  }

  function Interior(lines: seq<string>): seq<string>
    requires |lines| >= 2
  {
    lines[1..|lines| - 1]
  }

  ghost predicate WrapperOk(lines: seq<string>) {
    |lines| >= 4 && lines[0] == CalendarBegin && lines[|lines| - 1] == CalendarEnd
  }

  /** The outcome of scraping a calendar that reads as `lines`. */
  ghost function Scrape(lines: seq<string>): Result<string> {
    if !WrapperOk(lines) then Err(InvalidCalendar)
    else if Accepts(Interior(lines)) then Ok(Unlines(KeptLines(Interior(lines))))
    else Err(MalformedCalendar)
  }

  /** How each definition above extends by one line. */
  lemma ScanSnoc(p: seq<string>, l: string)
    ensures OpenName(p + [l]) ==
      if IsEndLine(l) then "" else if IsBeginLine(l) then MarkerName(l) else OpenName(p)
    ensures KeptLines(p + [l]) == if Captured(OpenName(p), l) then KeptLines(p) + [l] else KeptLines(p)
    ensures RootLines(p + [l]) == if Captured(OpenName(p), l) then RootLines(p) else RootLines(p) + [l]
    ensures Accepts(p + [l]) <==> Accepts(p) && LineAccepted(OpenName(p), l)
  {
    assert (p + [l])[..|p|] == p;
  }

  /** A line that is not acceptable where it stands makes every sequence that
      contains it there unacceptable. */
  lemma {:induction false} RejectedAt(ls: seq<string>, i: nat)
    requires i < |ls| && !LineAccepted(OpenName(ls[..i]), ls[i])
    ensures !Accepts(ls)
    decreases |ls|
  {
    if i < |ls| - 1 {
      var p := ls[..|ls| - 1];
      assert p[..i] == ls[..i] && p[i] == ls[i];
      RejectedAt(p, i);
    } else {
      assert ls[..|ls| - 1] == ls[..i];
    }
  }

  /** The scanner's variables after reading `ls`: the open component, the
      captured text, and no error so far. */
  ghost predicate Scanned(ls: seq<string>, current: string, captured: string) {
    current == OpenName(ls) && captured == Unlines(KeptLines(ls)) && Accepts(ls)
  }

  /** Reading the acceptable line `ls[i]` moves the scanner's variables on. */
  lemma ScanLine(ls: seq<string>, i: nat, current: string, captured: string)
    requires i < |ls| && Scanned(ls[..i], current, captured) && LineAccepted(current, ls[i])
    ensures Scanned(ls[..i + 1],
      if IsEndLine(ls[i]) then "" else if IsBeginLine(ls[i]) then MarkerName(ls[i]) else current,
      if Captured(current, ls[i]) then captured + ls[i] + "\n" else captured)
  {
    assert ls[..i + 1] == ls[..i] + [ls[i]];
    ScanSnoc(ls[..i], ls[i]);
    UnlinesSnoc(KeptLines(ls[..i]), ls[i]);
  }

  /** A scan of the whole interior decides `Scrape`. */
  lemma ScrapeScanned(lines: seq<string>, current: string, captured: string)
    requires WrapperOk(lines)
    requires Scanned(Interior(lines)[..|Interior(lines)|], current, captured)
    ensures Scrape(lines) == Ok(captured)
  {
    assert Interior(lines)[..|Interior(lines)|] == Interior(lines);
  }

  /** A line rejected where it stands makes `Scrape` report a malformed calendar. */
  lemma ScrapeRejected(lines: seq<string>, i: nat)
    requires WrapperOk(lines) && i < |Interior(lines)|
    requires !LineAccepted(OpenName(Interior(lines)[..i]), Interior(lines)[i])
    ensures Scrape(lines) == Err(MalformedCalendar)
  {
    RejectedAt(Interior(lines), i);
  }

  // ---------------------------------------------------------------------------
  // scrape_contents

  /** Checks the VCALENDAR wrapper, then walks the interior lines tracking the
      one open component, and collects the marker lines and the lines inside a
      component, each followed by "\n". */
  method ScrapeContents(calendar: string) returns (r: Result<string>)
    ensures r == Scrape(Lines(calendar))
  {
    var calendarLines := Lines(calendar);
    var lineCount := |calendarLines|;
    if lineCount < 4 {
      return Err(InvalidCalendar);
    }
    if calendarLines[0] != CalendarBegin || calendarLines[lineCount - 1] != CalendarEnd {
      return Err(InvalidCalendar);
    }

    var currentComponent := "";
    var capturedLines := "";
    var interior := calendarLines[1..lineCount - 1];
    assert interior == Interior(calendarLines);
    for i := 0 to |interior|
      invariant Scanned(interior[..i], currentComponent, capturedLines)
    {
      var currentLine := interior[i];
      ghost var before, beforeCaptured := currentComponent, capturedLines;
      if StartsWith(currentLine, "END:V") {
        // The source's `?` on this call never fires: the line has a ':'.
        ParsePropertyOfMarker(currentLine);
        var componentName := ParseProperty(currentLine).value;
        if currentComponent != componentName {
          ScrapeRejected(calendarLines, i);
          return Err(MalformedCalendar);
        }
        currentComponent := "";
        capturedLines := capturedLines + currentLine + "\n";
      } else if StartsWith(currentLine, "BEGIN:V") {
        if currentComponent != "" {
          ScrapeRejected(calendarLines, i);
          return Err(MalformedCalendar);
        }
        ParsePropertyOfMarker(currentLine);
        var componentName := ParseProperty(currentLine).value;
        currentComponent := componentName;
        capturedLines := capturedLines + currentLine + "\n";
      } else if currentComponent != "" {
        capturedLines := capturedLines + currentLine + "\n";
      }
      ScanLine(interior, i, before, beforeCaptured);
    }
    ScrapeScanned(calendarLines, currentComponent, capturedLines);
    return Ok(capturedLines);
  }

  // ---------------------------------------------------------------------------
  // formulate_calendar

  /** The crate version that the build substitutes into the product identifier. */
  const PackageVersion := "0.1.0"

  /** The product identifier, in the form of RFC 5545, section 3.7.3. */
  const ProductId := "-//calmuxd//CALMUXD " + PackageVersion + "//EN"

  const VersionLine := "VERSION:2.0"
  const ProductLine := "PRODID:" + ProductId

  /** The calendar-name line, when the feed has a name. */
  function NameLines(feed: FeedConfig): seq<string> {
    if feed.visualName.Some? then ["X-WR-CALNAME:" + feed.visualName.value] else []
  }

  /** The calendar-color line, when the feed has a color. */
  function ColorLines(feed: FeedConfig): seq<string> {
    if feed.color.Some? then ["X-APPLE-CALENDAR-COLOR:" + feed.color.value] else []
  }

  /** The calendar object's own properties in the header, in the order they
      are written. */
  function HeaderProperties(feed: FeedConfig): seq<string> {
    [VersionLine, ProductLine] + NameLines(feed) + ColorLines(feed)
  }

  /** The header lines of a muxed calendar. */
  function HeaderLines(feed: FeedConfig): seq<string> {
    [CalendarBegin] + HeaderProperties(feed)
  }

  /** The muxed calendar text around a scraped body. */
  function Muxed(feed: FeedConfig, body: string): string {
    Unlines(HeaderLines(feed)) + body + Unlines([CalendarEnd])
  }

  /** The outcome of muxing `feed` over a source whose text is `contents`. */
  ghost function Formulate(feed: FeedConfig, contents: string): Result<string> {
    match Scrape(Lines(contents))
    case Err(e) => Err(e)
    case Ok(body) => Ok(Muxed(feed, body))
  }

  /** The closing line ends the muxed text. */
  lemma MuxedClosed(feed: FeedConfig, body: string)
    ensures Muxed(feed, body) == Unlines(HeaderLines(feed)) + body + CalendarEnd + "\n"
  {
    UnlinesSnoc([], CalendarEnd);
    assert [] + [CalendarEnd] == [CalendarEnd];
  }

  /** `writeln!` of `line` to a buffer holding `Unlines(written)`. */
  method Writeln(buffer: string, ghost written: seq<string>, line: string)
    returns (buffer': string, ghost written': seq<string>)
    requires buffer == Unlines(written)
    ensures written' == written + [line] && buffer' == Unlines(written')
  {
    UnlinesSnoc(written, line);
    buffer', written' := buffer + line + "\n", written + [line];
  }

  /** Scrapes the source text (read from a file by the source; a parameter
      here) and writes the header, the body and the closing line. */
  method FormulateCalendar(feed: FeedConfig, calendarContents: string) returns (r: Result<string>)
    ensures Scrape(Lines(calendarContents)).Err? ==> r == Err(Scrape(Lines(calendarContents)).error)
    ensures Scrape(Lines(calendarContents)).Ok? ==>
      r == Ok(Muxed(feed, Scrape(Lines(calendarContents)).value))
  {
    var eventContents := ScrapeContents(calendarContents);
    if eventContents.Err? {
      return Err(eventContents.error);
    }

    var response := "";
    ghost var written: seq<string> := [];
    response, written := Writeln(response, written, CalendarBegin);
    // Every iCalendar object carries VERSION and PRODID (RFC 5545, section 3.6);
    // section 3.7.4 admits only version 2.0.
    response, written := Writeln(response, written, VersionLine);
    response, written := Writeln(response, written, ProductLine);
    assert written == [CalendarBegin] + [VersionLine, ProductLine];

    // The calendar name (X-WR-CALNAME) and the Apple calendar color, when set.
    if feed.visualName.Some? {
      response, written := Writeln(response, written, "X-WR-CALNAME:" + feed.visualName.value);
    }
    assert written == [CalendarBegin] + ([VersionLine, ProductLine] + NameLines(feed));
    if feed.color.Some? {
      response, written := Writeln(response, written, "X-APPLE-CALENDAR-COLOR:" + feed.color.value);
    }
    assert written == HeaderLines(feed);

    response := response + eventContents.value;
    response := response + CalendarEnd + "\n";
    MuxedClosed(feed, eventContents.value);
    return Ok(response);
  }

  // ---------------------------------------------------------------------------
  // handle_feed

  /** The status, content type and body of the HTTP reply. */
  datatype Reply = Reply(status: nat, contentType: string, body: string)

  const StatusOk: nat := 200
  const StatusBadRequest: nat := 400

  /** Maps the muxing outcome to a reply: the calendar on success, the error's
      display text otherwise. */
  function Respond(result: Result<string>): (reply: Reply)
    ensures reply.status == StatusOk <==> result.Ok?
    ensures reply.status == StatusOk || reply.status == StatusBadRequest
    ensures result.Ok? ==> reply.contentType == "text/calendar" && reply.body == result.value
    ensures result.Err? ==> reply.contentType == "text/plain" && reply.body == Display(result.error)
  {
    match result
    case Ok(response) => Reply(StatusOk, "text/calendar", response)
    case Err(e) => Reply(StatusBadRequest, "text/plain", Display(e))
  }

  /** Serves one feed request over the given source text. */
  method HandleFeed(feed: FeedConfig, calendarContents: string) returns (reply: Reply)
    ensures reply == Respond(Formulate(feed, calendarContents))
    ensures reply.status == StatusOk <==> Scrape(Lines(calendarContents)).Ok?
    ensures Scrape(Lines(calendarContents)).Err? ==>
      reply == Reply(StatusBadRequest, "text/plain", Display(Scrape(Lines(calendarContents)).error))
  {
    var result := FormulateCalendar(feed, calendarContents);
    reply := Respond(result);
  }
}
