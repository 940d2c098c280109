/** What the muxer guarantees: the rules that reject a source calendar, what
    survives scraping, and the shape of the calendar it serves. */
module MuxerProperties {
  import opened Text
  import opened Config
  import opened Muxer

  // ---------------------------------------------------------------------------
  // Rejection

  /** A source is an invalid calendar exactly when it has fewer than four lines
      or its first and last lines are not the VCALENDAR wrapper. */
  lemma InvalidExactlyWhenWrapperMissing(lines: seq<string>)
    ensures Scrape(lines) == Err(InvalidCalendar) <==>
      |lines| < 4 || lines[0] != CalendarBegin || lines[|lines| - 1] != CalendarEnd
  {
  }

  /** An END:V line that does not close the open component makes the whole
      source malformed. */
  lemma MismatchedEndRejected(lines: seq<string>, i: nat)
    requires WrapperOk(lines)
    requires i < |Interior(lines)| && IsEndLine(Interior(lines)[i])
    requires MarkerName(Interior(lines)[i]) != OpenName(Interior(lines)[..i])
    ensures Scrape(lines) == Err(MalformedCalendar)
  {
    RejectedAt(Interior(lines), i);
  }

  /** In particular an END:V line with no component open is malformed. */
  lemma EndWithNothingOpenRejected(lines: seq<string>, i: nat)
    requires WrapperOk(lines)
    requires i < |Interior(lines)| && IsEndLine(Interior(lines)[i])
    requires OpenName(Interior(lines)[..i]) == ""
    ensures Scrape(lines) == Err(MalformedCalendar)
  {
    ParsePropertyOfMarker(Interior(lines)[i]);
    MismatchedEndRejected(lines, i);
  }

  /** A BEGIN:V line while a component is open makes the source malformed:
      components never nest. */
  lemma NestedBeginRejected(lines: seq<string>, i: nat)
    requires WrapperOk(lines)
    requires i < |Interior(lines)| && IsBeginLine(Interior(lines)[i])
    requires OpenName(Interior(lines)[..i]) != ""
    ensures Scrape(lines) == Err(MalformedCalendar)
  {
    RejectedAt(Interior(lines), i);
  }

  // ---------------------------------------------------------------------------
  // What scraping keeps

  /** Kept and root lines split the interior: together they hold each line as
      often as the interior does. */
  lemma {:induction false} KeptAndRootPartition(ls: seq<string>)
    ensures multiset(KeptLines(ls)) + multiset(RootLines(ls)) == multiset(ls)
    ensures |KeptLines(ls)| + |RootLines(ls)| == |ls|
    decreases |ls|
  {
    if ls != [] {
      var p, l := ls[..|ls| - 1], ls[|ls| - 1];
      assert ls == p + [l];
      ScanSnoc(p, l);
      KeptAndRootPartition(p);
    }
  }

  /** Every kept line is a line of the interior. */
  lemma KeptLinesFromInput(ls: seq<string>)
    ensures forall l | l in KeptLines(ls) :: l in ls
  {
    KeptAndRootPartition(ls);
    forall l | l in KeptLines(ls) ensures l in ls {
      assert l in multiset(KeptLines(ls));
      assert l in multiset(ls);
    }
  }

  /** An interior without BEGIN:V and END:V lines has nothing open, keeps
      nothing, and every one of its lines is a root property. */
  lemma {:induction false} MarkerFree(h: seq<string>)
    requires forall l | l in h :: !IsMarker(l)
    ensures OpenName(h) == ""
    ensures KeptLines(h) == []
    ensures RootLines(h) == h
    ensures Accepts(h)
    decreases |h|
  {
    if h != [] {
      var p, l := h[..|h| - 1], h[|h| - 1];
      assert h == p + [l];
      assert forall x | x in p :: x in h;
      ScanSnoc(p, l);
      MarkerFree(p);
    }
  }

  /** Root properties are never copied: a calendar whose interior holds no
      component scrapes to the empty body. */
  lemma RootPropertiesDropped(lines: seq<string>)
    requires WrapperOk(lines)
    requires forall l | l in Interior(lines) :: !IsMarker(l)
    ensures Scrape(lines) == Ok("")
  {
    MarkerFree(Interior(lines));
  }

  /** Lines without BEGIN:V or END:V in front of `q` change nothing about how
      `q` is read, and all of them are root properties. */
  lemma {:induction false} MarkerFreePrefix(h: seq<string>, q: seq<string>)
    requires forall l | l in h :: !IsMarker(l)
    ensures OpenName(h + q) == OpenName(q)
    ensures KeptLines(h + q) == KeptLines(q)
    ensures RootLines(h + q) == h + RootLines(q)
    ensures Accepts(h + q) <==> Accepts(q)
    decreases |q|
  {
    if q == [] {
      assert h + q == h && h + [] == h;
      MarkerFree(h);
    } else {
      var q', l := q[..|q| - 1], q[|q| - 1];
      assert q == q' + [l];
      assert h + q == (h + q') + [l];
      ScanSnoc(h + q', l);
      ScanSnoc(q', l);
      MarkerFreePrefix(h, q');
      SnocAssociates(h, RootLines(q'), l);
    }
  }

  lemma SnocAssociates<T>(a: seq<T>, b: seq<T>, x: T)
    ensures (a + b) + [x] == a + (b + [x])
  {
  }

  /** Once nothing is open the scanner starts afresh: lines read after `p`
      are read as if `p` were not there, and the results line up. */
  lemma {:induction false} ClosedPrefix(p: seq<string>, q: seq<string>)
    requires OpenName(p) == ""
    ensures OpenName(p + q) == OpenName(q)
    ensures KeptLines(p + q) == KeptLines(p) + KeptLines(q)
    ensures RootLines(p + q) == RootLines(p) + RootLines(q)
    ensures Accepts(p + q) <==> Accepts(p) && Accepts(q)
    decreases |q|
  {
    if q == [] {
      assert p + q == p;
      assert KeptLines(p) + [] == KeptLines(p) && RootLines(p) + [] == RootLines(p);
    } else {
      var q', l := q[..|q| - 1], q[|q| - 1];
      assert q == q' + [l];
      assert p + q == (p + q') + [l];
      ClosedPrefix(p, q');
      ScanSnoc(p + q', l);
      ScanSnoc(q', l);
      SnocAssociates(KeptLines(p), KeptLines(q'), l);
      SnocAssociates(RootLines(p), RootLines(q'), l);
    }
  }

  /** Scraping what was kept keeps all of it: the kept lines end with the same
      component open, are acceptable whenever the interior was, and hold no
      root property. */
  lemma {:induction false} KeptLinesClosed(ls: seq<string>)
    ensures OpenName(KeptLines(ls)) == OpenName(ls)
    ensures KeptLines(KeptLines(ls)) == KeptLines(ls)
    ensures RootLines(KeptLines(ls)) == []
    ensures Accepts(ls) ==> Accepts(KeptLines(ls))
    decreases |ls|
  {
    if ls != [] {
      var p, l := ls[..|ls| - 1], ls[|ls| - 1];
      assert ls == p + [l];
      ScanSnoc(p, l);
      KeptLinesClosed(p);
      ScanSnoc(KeptLines(p), l);
    }
  }

  /** The scraped body reads back, line by line, as the kept interior lines. */
  lemma ScrapedBodyLines(lines: seq<string>)
    requires Scrape(lines).Ok? && AllPlain(lines)
    ensures Lines(Scrape(lines).value) == KeptLines(Interior(lines))
  {
    var interior := Interior(lines);
    KeptLinesFromInput(interior);
    assert forall l | l in interior :: l in lines;
    LinesUnlines(KeptLines(interior));
  }

  // ---------------------------------------------------------------------------
  // The served calendar

  /** A feed whose name and color can be written as single content lines. */
  predicate FeedPlain(feed: FeedConfig) {
    && (feed.visualName.Some? ==> IsPlainLine(feed.visualName.value))
    && (feed.color.Some? ==> IsPlainLine(feed.color.value))
  }

  /** A line that starts with neither 'B' nor 'E' is no component marker. */
  lemma NotMarker(l: string)
    requires |l| > 0 && l[0] != 'B' && l[0] != 'E'
    ensures !IsMarker(l)
  {
    if |l| >= 7 {
      assert l[..7][0] == l[0];
    }
    if |l| >= 5 {
      assert l[..5][0] == l[0];
    }
  }

  /** A line scraping treats as a root property and that reads back whole. */
  predicate RootProperty(l: string) {
    IsPlainLine(l) && !IsMarker(l)
  }

  /** A property line whose name starts with neither 'B' nor 'E' is a root
      property whenever its value is plain. */
  lemma PrefixedProperty(prefix: string, v: string)
    requires IsPlainLine(prefix) && |prefix| > 0 && prefix[0] != 'B' && prefix[0] != 'E'
    requires IsPlainLine(v)
    ensures RootProperty(prefix + v)
  {
    var l := prefix + v;
    if v == [] {
      assert l == prefix;
    }
    assert l[0] == prefix[0];
    NotMarker(l);
  }

  /** The same prefix in front of two strings leaves them equal or not. */
  lemma PrefixCancels(prefix: string, a: string, b: string)
    ensures prefix + a == prefix + b <==> a == b
  {
    if prefix + a == prefix + b {
      assert (prefix + a)[|prefix|..] == a;
      assert (prefix + b)[|prefix|..] == b;
    }
  }

  /** The first characters of the fixed header lines. */
  lemma FixedLinesStart()
    ensures CalendarBegin[0] == 'B' && VersionLine[0] == 'V' && ProductLine[0] == 'P'
  {
  }

  /** The third character tells the name line from the color line. */
  lemma OptionalLinesStart(name: string, color: string)
    ensures ("X-WR-CALNAME:" + name)[0] == 'X' && ("X-WR-CALNAME:" + name)[2] == 'W'
    ensures ("X-APPLE-CALENDAR-COLOR:" + color)[0] == 'X'
    ensures ("X-APPLE-CALENDAR-COLOR:" + color)[2] == 'A'
  {
  }

  /** The header opens with the wrapper, VERSION 2.0 and the product
      identifier; the name line is there exactly when a name is configured and
      the color line exactly when a color is. */
  lemma HeaderLayout(feed: FeedConfig, name: string, color: string)
    ensures HeaderLines(feed)[..3] == [CalendarBegin, VersionLine, ProductLine]
    ensures ("X-WR-CALNAME:" + name in HeaderLines(feed)) <==> feed.visualName == Some(name)
    ensures ("X-APPLE-CALENDAR-COLOR:" + color in HeaderLines(feed)) <==> feed.color == Some(color)
    ensures feed.visualName.Some? ==> HeaderLines(feed)[3] == "X-WR-CALNAME:" + feed.visualName.value
    ensures feed.color.Some? ==>
      HeaderLines(feed)[|HeaderLines(feed)| - 1] == "X-APPLE-CALENDAR-COLOR:" + feed.color.value
  {
    var fixed := [CalendarBegin, VersionLine, ProductLine];
    var h := HeaderLines(feed);
    assert h[..3] == fixed;
    var nameLine := "X-WR-CALNAME:" + name;
    var colorLine := "X-APPLE-CALENDAR-COLOR:" + color;
    FixedLinesStart();
    OptionalLinesStart(name, color);
    assert nameLine !in fixed && colorLine !in fixed;
    if feed.visualName.Some? {
      OptionalLinesStart(feed.visualName.value, color);
      PrefixCancels("X-WR-CALNAME:", name, feed.visualName.value);
      assert NameLines(feed) == ["X-WR-CALNAME:" + feed.visualName.value];
    }
    if feed.color.Some? {
      OptionalLinesStart(name, feed.color.value);
      PrefixCancels("X-APPLE-CALENDAR-COLOR:", color, feed.color.value);
      assert ColorLines(feed) == ["X-APPLE-CALENDAR-COLOR:" + feed.color.value];
    }
    assert nameLine in h <==> nameLine in NameLines(feed);
    assert colorLine in h <==> colorLine in ColorLines(feed);
  }


  lemma VersionLineRoot()
    ensures RootProperty(VersionLine)
  {
    PrefixedProperty("VERSION:", "2.0");
    assert "VERSION:" + "2.0" == "VERSION:2.0";
  }

  lemma ProductLineRoot()
    ensures RootProperty(ProductLine)
  {
    PrefixedProperty("PRODID:", ProductId);
  }

  lemma NameLineRoot(v: string)
    requires IsPlainLine(v)
    ensures RootProperty("X-WR-CALNAME:" + v)
  {
    PrefixedProperty("X-WR-CALNAME:", v);
  }

  lemma ColorLineRoot(v: string)
    requires IsPlainLine(v)
    ensures RootProperty("X-APPLE-CALENDAR-COLOR:" + v)
  {
    PrefixedProperty("X-APPLE-CALENDAR-COLOR:", v);
  }

  lemma WrapperLinesPlain()
    ensures IsPlainLine(CalendarBegin) && IsPlainLine(CalendarEnd)
  {
  }

  /** Every header line of a plain feed reads back whole, and all but the
      first are root properties. */
  lemma HeaderPlain(feed: FeedConfig)
    requires FeedPlain(feed)
    ensures AllPlain(HeaderLines(feed))
    ensures forall l | l in HeaderProperties(feed) :: !IsMarker(l)
  {
    VersionLineRoot();
    ProductLineRoot();
    if feed.visualName.Some? {
      NameLineRoot(feed.visualName.value);
    }
    if feed.color.Some? {
      ColorLineRoot(feed.color.value);
    }
    WrapperLinesPlain();
    var props := HeaderProperties(feed);
    assert forall l | l in props :: RootProperty(l);
  }

  /** The served calendar reads as the header lines, the body lines and the
      closing line, in that order. */
  lemma MuxedLayout(feed: FeedConfig, body: seq<string>)
    requires FeedPlain(feed) && AllPlain(body)
    ensures Lines(Muxed(feed, Unlines(body))) == HeaderLines(feed) + body + [CalendarEnd]
  {
    var all := HeaderLines(feed) + body + [CalendarEnd];
    HeaderPlain(feed);
    WrapperLinesPlain();
    UnlinesAppend(HeaderLines(feed), body);
    UnlinesAppend(HeaderLines(feed) + body, [CalendarEnd]);
    assert AllPlain(all);
    LinesUnlines(all);
  }

  /** The served calendar is itself a calendar the muxer accepts: scraping it
      again yields exactly the body that was scraped from the source, and its
      root properties are exactly the generated header (one VERSION, one
      PRODID, then the configured name and color), none from the source. */
  lemma MuxedRescrapes(feed: FeedConfig, contents: string)
    requires Scrape(Lines(contents)).Ok?
    requires AllPlain(Lines(contents)) && FeedPlain(feed)
    ensures var served := Lines(Muxed(feed, Scrape(Lines(contents)).value));
      && Scrape(served) == Scrape(Lines(contents))
      && RootLines(Interior(served)) == HeaderProperties(feed)
  {
    var source := Lines(contents);
    var kept := KeptLines(Interior(source));
    assert AllPlain(kept) by {
      KeptLinesFromInput(Interior(source));
      assert forall l | l in Interior(source) :: l in source;
    }
    MuxedLayout(feed, kept);
    HeaderPlain(feed);
    KeptLinesClosed(Interior(source));
    RescrapeWrapped(HeaderProperties(feed), kept);
  }

  /** The interior of a calendar read as the wrapper around `a` then `b`. */
  lemma InteriorOfTwo(a: seq<string>, b: seq<string>)
    ensures var lines := [CalendarBegin] + a + b + [CalendarEnd];
      |lines| == |a| + |b| + 2 && WrapperOk(lines) == (|a| + |b| >= 2)
      && Interior(lines) == a + b
  {
    var lines := [CalendarBegin] + a + b + [CalendarEnd];
    assert lines[1..|lines| - 1] == a + b;
  }

  /** Root properties in front of lines that scraping keeps whole. */
  lemma RescrapeWrapped(props: seq<string>, kept: seq<string>)
    requires forall l | l in props :: !IsMarker(l)
    requires Accepts(kept) && KeptLines(kept) == kept
    requires RootLines(kept) == []
    requires |props| >= 2
    ensures Scrape([CalendarBegin] + props + kept + [CalendarEnd]) == Ok(Unlines(kept))
    ensures RootLines(Interior([CalendarBegin] + props + kept + [CalendarEnd])) == props
  {
    InteriorOfTwo(props, kept);
    MarkerFreePrefix(props, kept);
    assert props + [] == props;
  }

  // ---------------------------------------------------------------------------
  // The reply

  /** Clients can tell the two errors apart by their text. */
  lemma DisplayDistinguishes(a: ParserError, b: ParserError)
    ensures Display(a) == Display(b) <==> a == b
  {
  }

  // ---------------------------------------------------------------------------
  // Single components

  /** Lines without BEGIN:V or END:V read while a component is open are all
      kept and leave that component open. */
  lemma {:induction false} InsideComponent(p: seq<string>, props: seq<string>)
    requires OpenName(p) != ""
    requires forall l | l in props :: !IsMarker(l)
    ensures OpenName(p + props) == OpenName(p)
    ensures KeptLines(p + props) == KeptLines(p) + props
    ensures RootLines(p + props) == RootLines(p)
    ensures Accepts(p + props) <==> Accepts(p)
    decreases |props|
  {
    if props == [] {
      assert p + props == p;
      assert KeptLines(p) + props == KeptLines(p);
    } else {
      var q, l := props[..|props| - 1], props[|props| - 1];
      assert props == q + [l];
      assert p + props == (p + q) + [l];
      assert l in props && !IsMarker(l);
      assert forall x | x in q :: x in props;
      InsideComponent(p, q);
      ScanSnoc(p + q, l);
      SnocAssociates(KeptLines(p), q, l);
    }
  }

  /** A calendar read as the wrapper around `mid` scrapes as `mid` is read. */
  lemma Wrapped(mid: seq<string>)
    requires |mid| >= 2
    ensures var lines := [CalendarBegin] + mid + [CalendarEnd];
      && WrapperOk(lines) && Interior(lines) == mid
      && Scrape(lines) == if Accepts(mid) then Ok(Unlines(KeptLines(mid))) else Err(MalformedCalendar)
  {
    var lines := [CalendarBegin] + mid + [CalendarEnd];
    assert lines[1..|lines| - 1] == mid;
  }

  /** "BEGIN:" followed by a name that starts with 'V' opens that name. */
  lemma BeginLine(name: string)
    requires |name| > 0 && name[0] == 'V'
    ensures IsBeginLine("BEGIN:" + name) && !IsEndLine("BEGIN:" + name)
    ensures MarkerName("BEGIN:" + name) == name
  {
    var begin := "BEGIN:" + name;
    assert begin[..7] == "BEGIN:V" && begin[6..] == name;
    assert begin[0] == 'B';
  }

  /** "END:" followed by a name that starts with 'V' closes that name. */
  lemma EndLine(name: string)
    requires |name| > 0 && name[0] == 'V'
    ensures IsEndLine("END:" + name) && !IsBeginLine("END:" + name)
    ensures MarkerName("END:" + name) == name
  {
    var end := "END:" + name;
    assert end[..5] == "END:V" && end[4..] == name;
    assert end[0] == 'E';
  }

  /** The lines a BEGIN:V line for `name` opens, as the scraper sees them. */
  lemma OpenComponent(name: string, props: seq<string>)
    requires |name| > 0 && name[0] == 'V'
    requires forall l | l in props :: !IsMarker(l)
    ensures OpenName(["BEGIN:" + name] + props) == name
    ensures KeptLines(["BEGIN:" + name] + props) == ["BEGIN:" + name] + props
    ensures RootLines(["BEGIN:" + name] + props) == []
    ensures Accepts(["BEGIN:" + name] + props)
  {
    var begin := "BEGIN:" + name;
    BeginLine(name);
    ScanSnoc([], begin);
    assert [] + [begin] == [begin];
    InsideComponent([begin], props);
  }

  /** A closed component is read whole: it is all kept, accepted, holds no
      root property and leaves nothing open. */
  lemma ClosedComponent(name: string, props: seq<string>)
    requires |name| > 0 && name[0] == 'V'
    requires forall l | l in props :: !IsMarker(l)
    ensures var component := ["BEGIN:" + name] + props + ["END:" + name];
      && OpenName(component) == "" && KeptLines(component) == component
      && RootLines(component) == [] && Accepts(component)
  {
    OpenComponent(name, props);
    EndLine(name);
    ScanSnoc(["BEGIN:" + name] + props, "END:" + name);
  }

  /** The interior of a calendar read as the wrapper around `a`, `b`, `c`. */
  lemma InteriorOfThree(a: seq<string>, b: seq<string>, c: seq<string>)
    ensures var lines := [CalendarBegin] + a + b + c + [CalendarEnd];
      |lines| == |a| + |b| + |c| + 2 && Interior(lines) == a + (b + c)
  {
    var lines := [CalendarBegin] + a + b + c + [CalendarEnd];
    assert lines[1..|lines| - 1] == a + (b + c);
  }

  /** The interior of a calendar read as the wrapper around five runs of lines. */
  lemma InteriorOfFive(a: seq<string>, b: seq<string>, c: seq<string>, d: seq<string>, e: seq<string>)
    ensures var lines := [CalendarBegin] + a + b + c + d + e + [CalendarEnd];
      |lines| == |a| + |b| + |c| + |d| + |e| + 2 && Interior(lines) == a + (b + (c + (d + e)))
  {
    var lines := [CalendarBegin] + a + b + c + d + e + [CalendarEnd];
    assert lines[1..|lines| - 1] == a + (b + (c + (d + e)));
  }

  /** Root properties after a closed component: they are dropped, and the
      interior is acceptable. */
  lemma ComponentThenRoots(component: seq<string>, after: seq<string>)
    requires OpenName(component) == "" && KeptLines(component) == component
    requires Accepts(component)
    requires forall l | l in after :: !IsMarker(l)
    ensures OpenName(component + after) == ""
    ensures KeptLines(component + after) == component
    ensures Accepts(component + after)
  {
    MarkerFree(after);
    ClosedPrefix(component, after);
    assert component + [] == component;
  }

  /** One component among root properties, before and after it: the
      component comes out whole and in order, and the root properties do not. */
  lemma SingleComponent(before: seq<string>, name: string, props: seq<string>, after: seq<string>)
    requires forall l | l in before :: !IsMarker(l)
    requires forall l | l in props :: !IsMarker(l)
    requires forall l | l in after :: !IsMarker(l)
    requires |name| > 0 && name[0] == 'V'
    ensures var component := ["BEGIN:" + name] + props + ["END:" + name];
      Scrape([CalendarBegin] + before + component + after + [CalendarEnd]) == Ok(Unlines(component))
  {
    var component := ["BEGIN:" + name] + props + ["END:" + name];
    ClosedComponent(name, props);
    ComponentThenRoots(component, after);
    MarkerFreePrefix(before, component + after);
    InteriorOfThree(before, component, after);
  }

  /** Two components among root properties come out whole, one after the
      other in the order of the source, and no root property comes out. */
  lemma TwoComponents(r0: seq<string>, name1: string, props1: seq<string>, r1: seq<string>,
                      name2: string, props2: seq<string>, r2: seq<string>)
    requires forall l | l in r0 :: !IsMarker(l)
    requires forall l | l in r1 :: !IsMarker(l)
    requires forall l | l in r2 :: !IsMarker(l)
    requires forall l | l in props1 :: !IsMarker(l)
    requires forall l | l in props2 :: !IsMarker(l)
    requires |name1| > 0 && name1[0] == 'V' && |name2| > 0 && name2[0] == 'V'
    ensures var c1 := ["BEGIN:" + name1] + props1 + ["END:" + name1];
      var c2 := ["BEGIN:" + name2] + props2 + ["END:" + name2];
      Scrape([CalendarBegin] + r0 + c1 + r1 + c2 + r2 + [CalendarEnd]) == Ok(Unlines(c1 + c2))
  {
    var c1 := ["BEGIN:" + name1] + props1 + ["END:" + name1];
    var c2 := ["BEGIN:" + name2] + props2 + ["END:" + name2];
    ClosedComponent(name1, props1);
    ClosedComponent(name2, props2);
    ComponentThenRoots(c2, r2);
    var tail := c2 + r2;
    MarkerFreePrefix(r1, tail);
    ClosedPrefix(c1, r1 + tail);
    MarkerFreePrefix(r0, c1 + (r1 + tail));
    InteriorOfFive(r0, c1, r1, c2, r2);
  }

  /** A component still open when the interior ends is not an error: after
      any acceptable lines that leave nothing open, a BEGIN:V line and the
      properties after it are kept as far as they go. */
  lemma OpenAtEndAccepted(p: seq<string>, name: string, props: seq<string>)
    requires Accepts(p) && OpenName(p) == ""
    requires |name| > 0 && name[0] == 'V'
    requires forall l | l in props :: !IsMarker(l)
    ensures var open := ["BEGIN:" + name] + props;
      Scrape([CalendarBegin] + p + open + [CalendarEnd]) ==
        if |p| + |props| == 0 then Err(InvalidCalendar) else Ok(Unlines(KeptLines(p) + open))
  {
    var open := ["BEGIN:" + name] + props;
    OpenComponent(name, props);
    ClosedPrefix(p, open);
    InteriorOfTwo(p, open);
  }

  /** A component still open when the wrapper closes is kept as far as it
      goes instead of being rejected. */
  lemma UnterminatedComponent(roots: seq<string>, name: string, props: seq<string>)
    requires forall l | l in roots :: !IsMarker(l)
    requires forall l | l in props :: !IsMarker(l)
    requires |name| > 0 && name[0] == 'V'
    requires |roots| + |props| > 0
    ensures var component := ["BEGIN:" + name] + props;
      Scrape([CalendarBegin] + roots + component + [CalendarEnd]) == Ok(Unlines(component))
  {
    var component := ["BEGIN:" + name] + props;
    OpenComponent(name, props);
    MarkerFreePrefix(roots, component);
    InteriorOfTwo(roots, component);
  }

  /** A component opened inside another (an alarm inside an event, say) makes
      the source malformed. */
  lemma NestedComponentRejected(roots: seq<string>, outer: string, props: seq<string>, inner: string, rest: seq<string>)
    requires forall l | l in roots :: !IsMarker(l)
    requires forall l | l in props :: !IsMarker(l)
    requires |outer| > 0 && outer[0] == 'V' && |inner| > 0 && inner[0] == 'V'
    ensures Scrape([CalendarBegin] + roots + ["BEGIN:" + outer] + props + ["BEGIN:" + inner] + rest + [CalendarEnd])
      == Err(MalformedCalendar)
  {
    var open := ["BEGIN:" + outer] + props;
    var before := roots + open;
    assert OpenName(before) == outer by {
      OpenComponent(outer, props);
      MarkerFreePrefix(roots, open);
    }
    BeginLine(inner);
    var mid := before + ["BEGIN:" + inner] + rest;
    var lines := [CalendarBegin] + roots + ["BEGIN:" + outer] + props + ["BEGIN:" + inner] + rest + [CalendarEnd];
    assert lines == [CalendarBegin] + mid + [CalendarEnd];
    Wrapped(mid);
    assert mid[..|before|] == before && mid[|before|] == "BEGIN:" + inner;
    NestedBeginRejected(lines, |before|);
  }

  /** The lines of the one-event calendar below, as the scraper sees them. */
  lemma LunchLines()
    ensures !IsMarker("VERSION:2.0") && !IsMarker("SUMMARY:Lunch")
    ensures "BEGIN:" + "VEVENT" == "BEGIN:VEVENT" && "END:" + "VEVENT" == "END:VEVENT"
  {
    NotMarker("VERSION:2.0");
    NotMarker("SUMMARY:Lunch");
  }

  /** A one-event calendar: the root VERSION line is dropped and the event is
      kept whole. */
  lemma LunchExample()
    ensures Scrape(["BEGIN:VCALENDAR", "VERSION:2.0", "BEGIN:VEVENT", "SUMMARY:Lunch", "END:VEVENT", "END:VCALENDAR"])
      == Ok(Unlines(["BEGIN:VEVENT", "SUMMARY:Lunch", "END:VEVENT"]))
  {
    var roots, props := ["VERSION:2.0"], ["SUMMARY:Lunch"];
    var component := ["BEGIN:VEVENT", "SUMMARY:Lunch", "END:VEVENT"];
    LunchLines();
    SingleComponent(roots, "VEVENT", props, []);
    assert ["BEGIN:VEVENT"] + props + ["END:VEVENT"] == component;
    assert [CalendarBegin] + roots + component + [] + [CalendarEnd]
      == ["BEGIN:VCALENDAR", "VERSION:2.0", "BEGIN:VEVENT", "SUMMARY:Lunch", "END:VEVENT", "END:VCALENDAR"];
  }
}
