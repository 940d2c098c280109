# calmuxd muxer, modelled in Dafny

calmuxd serves calendar feeds. For each configured feed it reads one iCalendar
object (RFC 5545, section 3.4) and scrapes the components out of it. It then
wraps those components in a freshly generated VCALENDAR header and returns the
result as an HTTP reply. This project models that core: the muxer in
`src/muxer.rs` and the feed configuration it reads.

- `text.dfy` (module `Text`) covers the parts of Rust's `str` API that the
  muxer relies on:
  - `starts_with`
  - the search behind `split_once`
  - `lines`
  - `Unlines`, the text a buffer holds after a `writeln!` of each line.
- `config.dfy` (module `Config`) holds `FeedConfig` (src/config.rs:14-30): the
  endpoint, the optional calendar name, the color and the feed URLs.
- `muxer.dfy` (module `Muxer`) holds:
  - the errors and their display text
  - `parse_property`
  - a declarative account of what scraping means (`OpenName`, `Accepts`,
    `KeptLines`, `RootLines`, `Scrape`)
  - the imperative `ScrapeContents` loop, proved to compute `Scrape` of the
    input's lines
  - `FormulateCalendar`, which writes the header lines, the scraped body and
    the closing line into a buffer
  - `Respond` / `HandleFeed`, which map the outcome to a status, a content type
    and a body.
- `muxer_properties.dfy` (module `MuxerProperties`) proves what the muxer
  guarantees:
  - which sources it rejects
  - that root properties are dropped and components kept whole and in order
  - the layout of the served calendar
  - that the served calendar is one the muxer accepts again, scraping to the
    same body, when the source's lines and the feed's name and color hold no
    line break and do not end in a carriage return (a name holding
    "\nBEGIN:VTODO" would open a component in the header)
  - a few concrete calendars.

The scanner follows the code, which differs from a scanner that keeps a stack
of open components:
- It keeps a single open component name, not a stack. A BEGIN:V line while a
  component is open is rejected, so nested components (a VALARM inside a
  VEVENT) make the source malformed.
- An END:V line must name the open component. With nothing open that name is
  "", so a stray END:V line is rejected.
- Nothing checks the end of the interior, so a component still open when END:VCALENDAR arrives is
  accepted and kept as far as it goes.
- The wrapper check looks at the first and last physical lines exactly, with
  no trimming.
- The source needs at least four lines.

## Model

| member | source | states |
|---|---|---|
| Text.StartsWith | src/muxer.rs:91-105 | a line starts with a marker exactly when its first characters are the marker's, and it is then the marker followed by the rest |
| Text.IndexOf | src/muxer.rs:46 | the index `split_once` splits at: no earlier `c`, `c` at the index, and the index is the length exactly when `c` does not occur |
| Text.Lines | src/muxer.rs:54 | the pieces `lines` yields never contain a line feed |
| Text.LinesUnlines | src/muxer.rs:54 | `lines` gives back exactly the lines written with `writeln!`, when none holds a line feed or ends in a carriage return |
| Text.UnlinesAppend | src/muxer.rs:104-126 | writing two runs of lines one after the other gives the concatenation of their texts |
| Muxer.Display | src/muxer.rs:26-34 | every error has a non-empty display text |
| Muxer.ParseProperty | src/muxer.rs:44-50 | Ok exactly when the line has a ':'; the value is everything after the first ':'; otherwise MalformedCalendar |
| Muxer.ParsePropertyOfMarker | src/muxer.rs:91-113 | on a BEGIN:V or END:V line `parse_property` cannot fail and yields the non-empty component name after the marker |
| Muxer.RejectedAt | src/muxer.rs:91-110 | one line that is not acceptable where it stands makes the whole interior unacceptable |
| Muxer.ScrapeContents | src/muxer.rs:53-131 | the loop's result is exactly `Scrape` of the input's lines: InvalidCalendar without the wrapper, MalformedCalendar on the first rejected marker, else the kept lines each followed by "\n" |
| Muxer.Writeln | src/muxer.rs:141-160 | `writeln!` onto a buffer holding some lines leaves it holding those lines and one more |
| Muxer.FormulateCalendar | src/muxer.rs:133-168 | a scrape error is passed on unchanged; otherwise the reply text is the header lines, the scraped body and END:VCALENDAR |
| Muxer.Respond | src/muxer.rs:173-184 | status 200 with text/calendar and the calendar exactly on success; 400 with text/plain and the error's display text otherwise |
| Muxer.HandleFeed | src/muxer.rs:170-184 | the reply for a feed is `Respond` of the muxing outcome; status 200 exactly when the source scrapes |
| MuxerProperties.InvalidExactlyWhenWrapperMissing | src/muxer.rs:61-76 | InvalidCalendar exactly when there are fewer than four lines or the first and last lines are not the VCALENDAR wrapper |
| MuxerProperties.MismatchedEndRejected | src/muxer.rs:91-98 | an END:V line naming another component than the open one makes the source malformed |
| MuxerProperties.EndWithNothingOpenRejected | src/muxer.rs:91-98 | an END:V line with no component open makes the source malformed |
| MuxerProperties.NestedBeginRejected | src/muxer.rs:105-110 | a BEGIN:V line while a component is open makes the source malformed |
| MuxerProperties.ClosedPrefix | src/muxer.rs:84-127 | once nothing is open the scanner starts afresh: what is open, kept, dropped and accepted after a prefix is what the rest gives on its own, joined to the prefix's |
| MuxerProperties.OpenAtEndAccepted | src/muxer.rs:84-130 | after acceptable lines that leave nothing open, a BEGIN:V line and properties with no END line scrape to Ok, keeping the earlier kept lines then the open component; only a too-short calendar is InvalidCalendar |
| MuxerProperties.KeptAndRootPartition | src/muxer.rs:84-127 | kept lines and root lines together hold every interior line exactly as often as the interior does |
| MuxerProperties.KeptLinesFromInput | src/muxer.rs:84-127 | every captured line comes from the interior |
| MuxerProperties.MarkerFree | src/muxer.rs:117-127 | with no BEGIN:V or END:V line nothing is open or kept and every line is a root property |
| MuxerProperties.RootPropertiesDropped | src/muxer.rs:117-127 | a calendar whose interior holds no component scrapes to the empty body |
| MuxerProperties.MarkerFreePrefix | src/muxer.rs:117-127 | root properties in front of other lines change nothing about how those lines are read |
| MuxerProperties.KeptLinesClosed | src/muxer.rs:84-127 | scraping the kept lines again keeps all of them, leaves the same component open and drops nothing |
| MuxerProperties.ScrapedBodyLines | src/muxer.rs:104-126 | the scraped body reads back, line by line, as the kept interior lines |
| MuxerProperties.HeaderLayout | src/muxer.rs:141-160 | the header starts with BEGIN:VCALENDAR, VERSION:2.0 and PRODID; the name line is there exactly when a name is set, at index 3, and the color line exactly when a color is set, last |
| MuxerProperties.HeaderPlain | src/muxer.rs:141-160 | for a feed whose name and color hold no line break, every header line reads back whole and none after the first is a component marker |
| MuxerProperties.MuxedLayout | src/muxer.rs:140-167 | the served calendar reads as the header lines, the body lines and END:VCALENDAR, in that order |
| MuxerProperties.MuxedRescrapes | src/muxer.rs:133-167 | when the source lines and the feed's name and color are plain lines, scraping the served calendar again gives the same body, and its root properties are exactly the generated ones |
| MuxerProperties.DisplayDistinguishes | src/muxer.rs:26-34 | the two errors have different display texts |
| MuxerProperties.InsideComponent | src/muxer.rs:117-127 | lines without markers read while a component is open are all kept, in order, and leave it open |
| MuxerProperties.BeginLine | src/muxer.rs:105-114 | "BEGIN:" followed by a name starting with 'V' opens that component |
| MuxerProperties.EndLine | src/muxer.rs:91-95 | "END:" followed by a name starting with 'V' closes that component |
| MuxerProperties.OpenComponent | src/muxer.rs:105-127 | a BEGIN:V line and the properties after it leave that component open and are all kept |
| MuxerProperties.ClosedComponent | src/muxer.rs:91-127 | a BEGIN:V line, marker-free properties and the matching END:V line are all kept, accepted, and leave nothing open |
| MuxerProperties.ComponentThenRoots | src/muxer.rs:100-127 | root properties after a closed component are dropped and leave it acceptable |
| MuxerProperties.SingleComponent | src/muxer.rs:84-130 | one component with root properties before and after it comes out whole and in order, and none of the root properties does |
| MuxerProperties.TwoComponents | src/muxer.rs:84-130 | two components among root properties come out whole, one after the other in source order, and no root property comes out |
| MuxerProperties.UnterminatedComponent | src/muxer.rs:84-130 | a component without its END line is kept as far as it goes, not rejected |
| MuxerProperties.NestedComponentRejected | src/muxer.rs:105-110 | a component opened inside another makes the source malformed |
| MuxerProperties.LunchExample | src/muxer.rs:119-123 | a one-event calendar loses its root VERSION line and keeps the event whole |

## Left out

- Reading `./temporary.ics` (src/muxer.rs:134-135) is left out. The file's contents are a parameter of `FormulateCalendar` and `HandleFeed`. The `expect` on a failed read is not modelled.
- `ParserError::FmtError` and the `From<fmt::Error>` conversion are left out. Every `writeln!` and `write!` in the core writes to a `String`, which never fails, so that error cannot arise.
- The `?` after `parse_property` inside the scanner is not modelled as an error path. Both marker lines contain a ':', so that call cannot fail (`ParsePropertyOfMarker`).
- The `println!` diagnostics before each MalformedCalendar return are left out. They are output only.
- `env!("CARGO_PKG_VERSION")` is fixed to the constant `PackageVersion`, "0.1.0", the version the source's own example product identifier carries. The crate manifest is not part of this model.
- The axum handler is modelled as a triple: status, content type and body (`Reply`). Async execution, the response types and header encoding are left out.
- `src/main.rs` is not part of this model. Neither are routing, fetching the configured URLs (a TODO in the source) or the `Config` struct with its `listen_address`.
- `FeedConfig.color` is declared as a plain `String` at src/config.rs:26. src/muxer.rs:158 matches it as an `Option`. The model follows the muxer and makes it optional.
- Line unfolding (RFC 5545, section 3.1), multiple VCALENDAR objects in one stream, and nested components are not handled by the source, and the model keeps that behaviour.
