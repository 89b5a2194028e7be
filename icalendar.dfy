/**
 * The text of the iCalendar document that gpredict writes for a list of
 * predicted satellite passes: a fixed VCALENDAR header, one VEVENT block of
 * seven lines per pass in list order, and a one-line footer. Lines end in a
 * bare line feed and are never folded.
 *
 * Values the writer takes from code outside this model arrive already
 * rendered: the time stamps from `daynum_to_str` and the floating-point
 * `%.0f`, `%6.2f` and `%f` conversions are opaque strings, and the duration
 * is the whole number of seconds left by the `(guint)` cast.
 */
module ICalendar {
  import opened Decimal

  /** One predicted pass, with its fields rendered as the writer prints them. */
  datatype Pass = Pass(
    satname: string,   // pass->satname; the calendar text uses the caller's label instead
    orbit: int,        // pass->orbit, printed with %d
    aosStamp: string,  // AOS as "%Y%m%dT%H%M%S"
    losStamp: string,  // LOS as "%Y%m%dT%H%M%S"
    aosHour: string,   // AOS as "%Y%m%d%H"
    maxEl: string,     // maximum elevation as "%.0f"
    aosAz: string,     // AOS azimuth as "%6.2f"
    losAz: string,     // LOS azimuth as "%6.2f"
    duration: nat)     // (los - aos) in whole seconds

  /** The ground station; latitude and longitude as "%f". */
  datatype Observer = Observer(lat: string, lon: string)

  /** A duration split into hours, minutes and seconds. */
  datatype Hms = Hms(hours: nat, minutes: nat, seconds: nat)

  /** Splitting whole seconds into hours, minutes below 60 and seconds below 60. */
  function Split(total: nat): (r: Hms)
    ensures r.minutes < 60 && r.seconds < 60
    ensures 3600 * r.hours + 60 * r.minutes + r.seconds == total
  {
    Hms(total / 3600, total % 3600 / 60, total % 60)
  }

  /** The two bounds and the sum determine the split: no other split exists. */
  lemma SplitUnique(total: nat, h: nat, m: nat, s: nat)
    requires m < 60 && s < 60 && 3600 * h + 60 * m + s == total
    ensures Split(total) == Hms(h, m, s)
  {
    var r := Split(total);
    assert 60 * m + s < 3600;
    assert 60 * r.minutes + r.seconds < 3600;
    assert r.hours == h;
  }

  /** `MM:SS` of a duration: the hours are dropped, so it shows the seconds modulo one hour. */
  function DurationText(total: nat): (r: string)
    ensures |r| == 5 && r[2] == ':' && AllDigits(r[..2]) && AllDigits(r[3..])
    ensures NoNewline(r)
    ensures ValueOf(r[..2]) == Split(total).minutes && ValueOf(r[3..]) == Split(total).seconds
    ensures ValueOf(r[..2]) < 60 && ValueOf(r[3..]) < 60
    ensures ValueOf(r[..2]) * 60 + ValueOf(r[3..]) == total % 3600
  {
    var hms := Split(total);
    var r := Pad2(hms.minutes) + ":" + Pad2(hms.seconds);
    assert r[..2] == Pad2(hms.minutes) && r[3..] == Pad2(hms.seconds);
    r
  }

  /** A pass of one minute shows as "01:00". */
  lemma DurationOfOneMinute()
    ensures DurationText(60) == "01:00"
  {
    assert Split(60) == Hms(0, 1, 0);
    assert Pad2(1) == "01" && Pad2(0) == "00";
  }

  /**
   * Two durations render alike exactly when they agree modulo one hour: a
   * pass of 1:05:00 shows the same "05:00" as one of 0:05:00.
   */
  lemma DurationTextModHour(a: nat, b: nat)
    ensures DurationText(a) == DurationText(b) <==> a % 3600 == b % 3600
  {
    if a % 3600 == b % 3600 {
      SecondsWithinHour(a);
      SecondsWithinHour(b);
    }
  }

  /** The seconds of a duration depend only on its remainder modulo one hour. */
  lemma SecondsWithinHour(t: nat)
    ensures t % 60 == (t % 3600) % 60
  {
    var q := t / 3600;
    var r := t % 3600;
    assert t == 60 * (60 * q) + r;
    assert (60 * (60 * q) + r) % 60 == r % 60;
  }

  predicate NoNewline(s: string) {
    '\n' !in s
  }

  predicate AllNoNewline(ls: seq<string>) {
    forall i :: 0 <= i < |ls| ==> NoNewline(ls[i])
  }

  /** The inputs carry no line feed of their own. */
  predicate CleanPass(p: Pass) {
    NoNewline(p.aosStamp) && NoNewline(p.losStamp) && NoNewline(p.aosHour) &&
    NoNewline(p.maxEl) && NoNewline(p.aosAz) && NoNewline(p.losAz)
  }

  predicate CleanObserver(obs: Observer) {
    NoNewline(obs.lat) && NoNewline(obs.lon)
  }

  predicate CleanPasses(ps: seq<Pass>) {
    forall i :: 0 <= i < |ps| ==> CleanPass(ps[i])
  }

  const HeaderLines: seq<string> := ["BEGIN:VCALENDAR", "VERSION:2.0", "CALSCALE:GREGORIAN"]
  const FooterLines: seq<string> := ["END:VCALENDAR"]
  const Header: string := "BEGIN:VCALENDAR\n" + "VERSION:2.0\n" + "CALSCALE:GREGORIAN\n"
  const Footer: string := "END:VCALENDAR\n"

  /** What follows DTSTART and DTEND: a bare colon for local time, a UTC TZID parameter otherwise. */
  function TzSeparator(useLocalTime: bool): (sep: string)
    ensures |sep| >= 1 && sep[|sep| - 1] == ':'
    ensures NoNewline(sep)
    ensures useLocalTime <==> |sep| == 1
  {
    if useLocalTime then ":" else ";TZID=UTC:"
  }

  /** The DESCRIPTION value; `\\n` is the two-character escape, not a line feed. */
  function Description(p: Pass): (d: string)
    ensures |d| == 10 + 5 + 2 + 14 + |p.aosAz| + 2 + 14 + |p.losAz| + 2
    ensures d[..10] == "Duration: " && d[10..15] == DurationText(p.duration)
  {
    "Duration: " + DurationText(p.duration) + "\\n" +
    "AOS Azimuth:  " + p.aosAz + "\\n" +
    "LOS Azimuth:  " + p.losAz + "\\n"
  }

  /** The seven lines of one pass's VEVENT block, without their line feeds. */
  function EventLines(p: Pass, obs: Observer, sep: string, sat: string): (ls: seq<string>)
    ensures |ls| == 7 && ls[0] == "BEGIN:VEVENT" && ls[6] == "END:VEVENT"
  {
    [ "BEGIN:VEVENT",
      "DTSTART" + sep + p.aosStamp,
      "DTEND" + sep + p.losStamp,
      "SUMMARY:" + sat + " [" + p.maxEl + "°]",
      "UID:" + sat + IntDecimal(p.orbit) + p.aosHour + "@" + obs.lat + obs.lon,
      "DESCRIPTION:" + Description(p),
      "END:VEVENT" ]
  }

  /** Lines joined into text, each followed by a line feed. */
  function JoinLines(ls: seq<string>): string {
    if ls == [] then [] else ls[0] + "\n" + JoinLines(ls[1..])
  }

  lemma {:induction false} JoinLinesAppend(a: seq<string>, b: seq<string>)
    ensures JoinLines(a + b) == JoinLines(a) + JoinLines(b)
  {
    if a != [] {
      assert a + b == [a[0]] + (a[1..] + b);
      assert a == [a[0]] + a[1..];
      JoinLinesCons(a[0], a[1..] + b);
      JoinLinesCons(a[0], a[1..]);
      JoinLinesAppend(a[1..], b);
    } else {
      assert a + b == b;
    }
  }

  /** The index of the first line feed in `t`, or `|t|` when there is none. */
  function FirstNewline(t: string): (k: nat)
    ensures k <= |t|
    ensures forall j :: 0 <= j < k ==> t[j] != '\n'
    ensures k < |t| ==> t[k] == '\n'
  {
    if t == [] || t[0] == '\n' then 0 else 1 + FirstNewline(t[1..])
  }

  /** A reader's view of a text: the lines it holds, cut at each line feed. */
  function SplitLines(t: string): seq<string>
    decreases |t|
  {
    if t == [] then []
    else
      var k := FirstNewline(t);
      if k == |t| then [t] else [t[..k]] + SplitLines(t[k + 1..])
  }

  /** Cutting joined lines at the line feeds gives back the lines. */
  lemma {:induction false} SplitJoinLines(ls: seq<string>)
    requires AllNoNewline(ls)
    ensures SplitLines(JoinLines(ls)) == ls
  {
    if ls != [] {
      var t := JoinLines(ls);
      var n := |ls[0]|;
      assert t == ls[0] + "\n" + JoinLines(ls[1..]);
      assert t[n] == '\n';
      var k := FirstNewline(t);
      assert k == n;
      assert t[..k] == ls[0];
      assert t[k + 1..] == JoinLines(ls[1..]);
      assert AllNoNewline(ls[1..]) by {
        forall i | 0 <= i < |ls[1..]| ensures NoNewline(ls[1..][i]) {
          assert ls[1..][i] == ls[i + 1];
        }
      }
      SplitJoinLines(ls[1..]);
    }
  }

  /** The text of one pass's VEVENT block. */
  function Event(p: Pass, obs: Observer, sep: string, sat: string): string {
    JoinLines(EventLines(p, obs, sep, sat))
  }

  /** The VEVENT blocks of all passes, in list order. */
  function Events(ps: seq<Pass>, obs: Observer, sep: string, sat: string): string {
    if ps == [] then []
    else Events(ps[..|ps| - 1], obs, sep, sat) + Event(ps[|ps| - 1], obs, sep, sat)
  }

  /** The lines of all VEVENT blocks, seven per pass. */
  function EventsLines(ps: seq<Pass>, obs: Observer, sep: string, sat: string): (ls: seq<string>)
    ensures |ls| == 7 * |ps|
  {
    if ps == [] then []
    else EventsLines(ps[..|ps| - 1], obs, sep, sat) + EventLines(ps[|ps| - 1], obs, sep, sat)
  }

  /** The whole document the writer produces for a list of passes. */
  function Document(ps: seq<Pass>, obs: Observer, useLocalTime: bool, sat: string): string {
    Header + Events(ps, obs, TzSeparator(useLocalTime), sat) + Footer
  }

  /** The lines of that document. */
  function DocLines(ps: seq<Pass>, obs: Observer, useLocalTime: bool, sat: string): (ls: seq<string>)
    ensures |ls| == 7 * |ps| + 4
  {
    HeaderLines + EventsLines(ps, obs, TzSeparator(useLocalTime), sat) + FooterLines
  }

  lemma JoinLinesCons(l: string, ls: seq<string>)
    ensures JoinLines([l] + ls) == l + "\n" + JoinLines(ls)
  {
    assert ([l] + ls)[1..] == ls;
  }

  /** Seven lines joined, written out. */
  lemma JoinSeven(l0: string, l1: string, l2: string, l3: string, l4: string, l5: string, l6: string)
    ensures JoinLines([l0, l1, l2, l3, l4, l5, l6]) ==
      l0 + "\n" + l1 + "\n" + l2 + "\n" + l3 + "\n" + l4 + "\n" + l5 + "\n" + l6 + "\n"
  {
    JoinLinesCons(l6, []);
    JoinLinesCons(l5, [l6]);
    JoinLinesCons(l4, [l5, l6]);
    JoinLinesCons(l3, [l4, l5, l6]);
    JoinLinesCons(l2, [l3, l4, l5, l6]);
    JoinLinesCons(l1, [l2, l3, l4, l5, l6]);
    JoinLinesCons(l0, [l1, l2, l3, l4, l5, l6]);
    assert [l6] == [l6] + [];
  }

  /** Appending seven joined lines one line at a time gives the same text. */
  lemma AppendSeven(data: string, l0: string, l1: string, l2: string, l3: string, l4: string,
                    l5: string, l6: string)
    ensures data + l0 + "\n" + l1 + "\n" + l2 + "\n" + l3 + "\n" + l4 + "\n" + l5 + "\n" + l6 + "\n" ==
      data + (l0 + "\n" + l1 + "\n" + l2 + "\n" + l3 + "\n" + l4 + "\n" + l5 + "\n" + l6 + "\n")
  {
  }

  /** One VEVENT block written out as flat text, line by line. */
  lemma EventText(p: Pass, obs: Observer, sep: string, sat: string)
    ensures Event(p, obs, sep, sat) ==
      "BEGIN:VEVENT" + "\n" +
      ("DTSTART" + sep + p.aosStamp) + "\n" +
      ("DTEND" + sep + p.losStamp) + "\n" +
      ("SUMMARY:" + sat + " [" + p.maxEl + "°]") + "\n" +
      ("UID:" + sat + IntDecimal(p.orbit) + p.aosHour + "@" + obs.lat + obs.lon) + "\n" +
      ("DESCRIPTION:" + Description(p)) + "\n" +
      "END:VEVENT" + "\n"
  {
    JoinSeven("BEGIN:VEVENT",
      "DTSTART" + sep + p.aosStamp,
      "DTEND" + sep + p.losStamp,
      "SUMMARY:" + sat + " [" + p.maxEl + "°]",
      "UID:" + sat + IntDecimal(p.orbit) + p.aosHour + "@" + obs.lat + obs.lon,
      "DESCRIPTION:" + Description(p),
      "END:VEVENT");
  }

  lemma JoinThree(l0: string, l1: string, l2: string)
    ensures JoinLines([l0, l1, l2]) == l0 + "\n" + l1 + "\n" + l2 + "\n"
  {
    JoinLinesCons(l2, []);
    JoinLinesCons(l1, [l2]);
    JoinLinesCons(l0, [l1, l2]);
    assert [l2] == [l2] + [];
  }

  /** The header and footer constants are the joined header and footer lines. */
  lemma HeaderFooterText()
    ensures Header == JoinLines(HeaderLines)
    ensures Footer == JoinLines(FooterLines)
  {
    JoinThree("BEGIN:VCALENDAR", "VERSION:2.0", "CALSCALE:GREGORIAN");
    assert "BEGIN:VCALENDAR\n" == "BEGIN:VCALENDAR" + "\n";
    assert "VERSION:2.0\n" == "VERSION:2.0" + "\n";
    assert "CALSCALE:GREGORIAN\n" == "CALSCALE:GREGORIAN" + "\n";
    JoinLinesCons("END:VCALENDAR", []);
    assert FooterLines == ["END:VCALENDAR"] + [];
  }

  /** The text of all blocks is the joined lines of all blocks. */
  lemma {:induction false} EventsText(ps: seq<Pass>, obs: Observer, sep: string, sat: string)
    ensures Events(ps, obs, sep, sat) == JoinLines(EventsLines(ps, obs, sep, sat))
  {
    if ps != [] {
      var init := ps[..|ps| - 1];
      EventsText(init, obs, sep, sat);
      JoinLinesAppend(EventsLines(init, obs, sep, sat), EventLines(ps[|ps| - 1], obs, sep, sat));
    }
  }

  /** The document text is its lines joined. */
  lemma DocumentText(ps: seq<Pass>, obs: Observer, useLocalTime: bool, sat: string)
    ensures Document(ps, obs, useLocalTime, sat) == JoinLines(DocLines(ps, obs, useLocalTime, sat))
  {
    var sep := TzSeparator(useLocalTime);
    var el := EventsLines(ps, obs, sep, sat);
    HeaderFooterText();
    EventsText(ps, obs, sep, sat);
    JoinLinesAppend(HeaderLines, el);
    JoinLinesAppend(HeaderLines + el, FooterLines);
  }

  /** No line of a block holds a line feed when the inputs hold none. */
  lemma EventLinesClean(p: Pass, obs: Observer, sep: string, sat: string)
    requires CleanPass(p) && CleanObserver(obs) && NoNewline(sat) && NoNewline(sep)
    ensures AllNoNewline(EventLines(p, obs, sep, sat))
  {
    DescriptionHasNoLineFeed(p);
  }

  lemma {:induction false} EventsLinesClean(ps: seq<Pass>, obs: Observer, sep: string, sat: string)
    requires CleanPasses(ps) && CleanObserver(obs) && NoNewline(sat) && NoNewline(sep)
    ensures AllNoNewline(EventsLines(ps, obs, sep, sat))
  {
    if ps != [] {
      var init := ps[..|ps| - 1];
      assert CleanPasses(init) by {
        forall i | 0 <= i < |init| ensures CleanPass(init[i]) { assert init[i] == ps[i]; }
      }
      assert CleanPass(ps[|ps| - 1]);
      EventsLinesClean(init, obs, sep, sat);
      EventLinesClean(ps[|ps| - 1], obs, sep, sat);
    }
  }

  /**
   * The DESCRIPTION value holds no real line break: its three parts are
   * joined by the two-character escape only.
   */
  lemma DescriptionHasNoLineFeed(p: Pass)
    requires NoNewline(p.aosAz) && NoNewline(p.losAz)
    ensures NoNewline(Description(p))
  {
  }

  /** Block k of the list is made from pass k: no block is dropped, added or reordered. */
  lemma {:induction false} EventBlockAt(ps: seq<Pass>, obs: Observer, sep: string, sat: string, k: nat)
    requires k < |ps|
    ensures EventsLines(ps, obs, sep, sat)[7 * k .. 7 * k + 7] == EventLines(ps[k], obs, sep, sat)
  {
    var init := ps[..|ps| - 1];
    var a := EventsLines(init, obs, sep, sat);
    var b := EventLines(ps[|ps| - 1], obs, sep, sat);
    assert EventsLines(ps, obs, sep, sat) == a + b;
    if k < |ps| - 1 {
      EventBlockAt(init, obs, sep, sat, k);
      assert init[k] == ps[k];
      SliceOfAppend(a, b, 7 * k, 7 * k + 7);
    } else {
      SliceOfAppend(a, b, 7 * k, 7 * k + 7);
    }
  }

  /** A slice of a concatenation lies in one part or the other. */
  lemma SliceOfAppend<T>(a: seq<T>, b: seq<T>, i: nat, j: nat)
    requires i <= j <= |a + b|
    ensures j <= |a| ==> (a + b)[i..j] == a[i..j]
    ensures |a| <= i ==> (a + b)[i..j] == b[i - |a|..j - |a|]
  {
  }

  /** A seven-line block of the middle part, seen behind a three-line first part. */
  lemma BlockBehindHeader<T>(a: seq<T>, b: seq<T>, c: seq<T>, k: nat, block: seq<T>)
    requires |a| == 3 && 7 * k + 7 <= |b| && b[7 * k .. 7 * k + 7] == block
    ensures (a + b + c)[3 + 7 * k .. 10 + 7 * k] == block
  {
    assert (a + b + c)[3 + 7 * k .. 10 + 7 * k] == (a + b)[3 + 7 * k .. 10 + 7 * k];
  }

  /** A value found at exactly one index occurs once in the multiset of a sequence. */
  lemma OccursOnce<T>(ls: seq<T>, x: T, j: nat)
    requires j < |ls| && ls[j] == x
    requires forall i :: 0 <= i < |ls| && i != j ==> ls[i] != x
    ensures multiset(ls)[x] == 1
  {
    assert ls == ls[..j] + [x] + ls[j + 1..];
    assert x !in ls[..j];
    assert x !in ls[j + 1..];
  }

  /** The first character of each inner line of a block, whatever the inserted values. */
  lemma LineHeads(sep: string, aos: string, los: string, sat: string, el: string, orbit: string,
                  hour: string, lat: string, lon: string, desc: string)
    ensures ("DTSTART" + sep + aos)[0] == 'D'
    ensures ("DTEND" + sep + los)[0] == 'D'
    ensures ("SUMMARY:" + sat + " [" + el + "°]")[0] == 'S'
    ensures ("UID:" + sat + orbit + hour + "@" + lat + lon)[0] == 'U'
    ensures ("DESCRIPTION:" + desc)[0] == 'D'
  {
  }

  /** Seven lines framed by the markers, with no marker inside, hold each marker once. */
  lemma FramedBlockMarkers(l1: string, l2: string, l3: string, l4: string, l5: string)
    requires |l1| > 0 && |l2| > 0 && |l3| > 0 && |l4| > 0 && |l5| > 0
    requires l1[0] != 'B' && l2[0] != 'B' && l3[0] != 'B' && l4[0] != 'B' && l5[0] != 'B'
    requires l1[0] != 'E' && l2[0] != 'E' && l3[0] != 'E' && l4[0] != 'E' && l5[0] != 'E'
    ensures multiset(["BEGIN:VEVENT", l1, l2, l3, l4, l5, "END:VEVENT"])["BEGIN:VEVENT"] == 1
    ensures multiset(["BEGIN:VEVENT", l1, l2, l3, l4, l5, "END:VEVENT"])["END:VEVENT"] == 1
  {
    var ls := ["BEGIN:VEVENT", l1, l2, l3, l4, l5, "END:VEVENT"];
    var begin, end := "BEGIN:VEVENT", "END:VEVENT";
    assert begin[0] == 'B' && end[0] == 'E';
    assert |ls[0]| == 12 && |ls[6]| == 10;
    OccursOnce(ls, begin, 0);
    OccursOnce(ls, end, 6);
  }

  /** One block holds exactly one BEGIN:VEVENT line and one END:VEVENT line. */
  lemma EventLinesMarkers(p: Pass, obs: Observer, sep: string, sat: string)
    ensures multiset(EventLines(p, obs, sep, sat))["BEGIN:VEVENT"] == 1
    ensures multiset(EventLines(p, obs, sep, sat))["END:VEVENT"] == 1
  {
    LineHeads(sep, p.aosStamp, p.losStamp, sat, p.maxEl, IntDecimal(p.orbit), p.aosHour,
      obs.lat, obs.lon, Description(p));
    FramedBlockMarkers(
      "DTSTART" + sep + p.aosStamp,
      "DTEND" + sep + p.losStamp,
      "SUMMARY:" + sat + " [" + p.maxEl + "°]",
      "UID:" + sat + IntDecimal(p.orbit) + p.aosHour + "@" + obs.lat + obs.lon,
      "DESCRIPTION:" + Description(p));
  }

  lemma {:induction false} EventsLinesMarkers(ps: seq<Pass>, obs: Observer, sep: string, sat: string)
    ensures multiset(EventsLines(ps, obs, sep, sat))["BEGIN:VEVENT"] == |ps|
    ensures multiset(EventsLines(ps, obs, sep, sat))["END:VEVENT"] == |ps|
  {
    if ps != [] {
      EventsLinesMarkers(ps[..|ps| - 1], obs, sep, sat);
      EventLinesMarkers(ps[|ps| - 1], obs, sep, sat);
    }
  }

  lemma AllNoNewlineAppend(a: seq<string>, b: seq<string>)
    requires AllNoNewline(a) && AllNoNewline(b)
    ensures AllNoNewline(a + b)
  {
    forall i | 0 <= i < |a + b| ensures NoNewline((a + b)[i]) {
      if i >= |a| { assert (a + b)[i] == b[i - |a|]; }
    }
  }

  lemma FrameLinesClean()
    ensures AllNoNewline(HeaderLines) && AllNoNewline(FooterLines)
  {
  }

  /** No line of the document holds a line feed when the inputs hold none. */
  lemma DocLinesClean(ps: seq<Pass>, obs: Observer, useLocalTime: bool, sat: string)
    requires CleanPasses(ps) && CleanObserver(obs) && NoNewline(sat)
    ensures AllNoNewline(DocLines(ps, obs, useLocalTime, sat))
  {
    var sep := TzSeparator(useLocalTime);
    var el := EventsLines(ps, obs, sep, sat);
    EventsLinesClean(ps, obs, sep, sat);
    FrameLinesClean();
    AllNoNewlineAppend(HeaderLines, el);
    AllNoNewlineAppend(HeaderLines + el, FooterLines);
  }

  /** The document holds one BEGIN:VEVENT line and one END:VEVENT line per pass. */
  lemma DocLinesMarkers(ps: seq<Pass>, obs: Observer, useLocalTime: bool, sat: string)
    ensures multiset(DocLines(ps, obs, useLocalTime, sat))["BEGIN:VEVENT"] == |ps|
    ensures multiset(DocLines(ps, obs, useLocalTime, sat))["END:VEVENT"] == |ps|
  {
    var el := EventsLines(ps, obs, TzSeparator(useLocalTime), sat);
    EventsLinesMarkers(ps, obs, TzSeparator(useLocalTime), sat);
    assert multiset(DocLines(ps, obs, useLocalTime, sat)) ==
      multiset(HeaderLines) + multiset(el) + multiset(FooterLines);
    FrameLinesAreNotMarkers();
  }

  lemma FrameLinesAreNotMarkers()
    ensures multiset(HeaderLines)["BEGIN:VEVENT"] == 0 && multiset(HeaderLines)["END:VEVENT"] == 0
    ensures multiset(FooterLines)["BEGIN:VEVENT"] == 0 && multiset(FooterLines)["END:VEVENT"] == 0
  {
    assert |HeaderLines[0]| == 15 && |HeaderLines[1]| == 11 && |HeaderLines[2]| == 18;
    assert |FooterLines[0]| == 13;
  }

  /**
   * The line layout of the whole document: the three header lines, seven
   * lines per pass, and the footer line.
   */
  lemma DocLinesLayout(ps: seq<Pass>, obs: Observer, useLocalTime: bool, sat: string)
    ensures var ls := DocLines(ps, obs, useLocalTime, sat);
      && |ls| == 7 * |ps| + 4
      && ls[..3] == HeaderLines
      && ls[|ls| - 1..] == FooterLines
  {
    var el := EventsLines(ps, obs, TzSeparator(useLocalTime), sat);
    var ls := DocLines(ps, obs, useLocalTime, sat);
    SliceOfAppend(HeaderLines, el + FooterLines, 0, 3);
    SliceOfAppend(HeaderLines + el, FooterLines, |ls| - 1, |ls|);
  }

  /** Cutting the document text at its line feeds gives exactly its lines. */
  lemma DocumentReadsBack(ps: seq<Pass>, obs: Observer, useLocalTime: bool, sat: string)
    requires CleanPasses(ps) && CleanObserver(obs) && NoNewline(sat)
    ensures SplitLines(Document(ps, obs, useLocalTime, sat)) == DocLines(ps, obs, useLocalTime, sat)
  {
    DocLinesClean(ps, obs, useLocalTime, sat);
    DocumentText(ps, obs, useLocalTime, sat);
    SplitJoinLines(DocLines(ps, obs, useLocalTime, sat));
  }

  /** Block k of the document is built from pass k. */
  lemma DocumentBlockAt(ps: seq<Pass>, obs: Observer, useLocalTime: bool, sat: string, k: nat)
    requires k < |ps|
    ensures var ls := DocLines(ps, obs, useLocalTime, sat);
      ls[3 + 7 * k .. 10 + 7 * k] == EventLines(ps[k], obs, TzSeparator(useLocalTime), sat)
  {
    FramedBlockAt(ps, obs, TzSeparator(useLocalTime), sat, k);
  }

  /** Behind the three header lines, block k sits seven lines per earlier pass further on. */
  lemma FramedBlockAt(ps: seq<Pass>, obs: Observer, sep: string, sat: string, k: nat)
    requires k < |ps|
    ensures var ls := HeaderLines + EventsLines(ps, obs, sep, sat) + FooterLines;
      ls[3 + 7 * k .. 10 + 7 * k] == EventLines(ps[k], obs, sep, sat)
  {
    EventBlockAt(ps, obs, sep, sat, k);
    BlockBehindHeader(HeaderLines, EventsLines(ps, obs, sep, sat), FooterLines, k,
      EventLines(ps[k], obs, sep, sat));
  }

  /**
   * DTSTART and DTEND of every block carry the same separator: a colon
   * exactly when local time is selected, `;TZID=UTC:` exactly otherwise.
   */
  lemma DateLinesAt(ps: seq<Pass>, obs: Observer, useLocalTime: bool, sat: string, k: nat)
    requires k < |ps|
    ensures var ls := DocLines(ps, obs, useLocalTime, sat);
      var sep := if useLocalTime then ":" else ";TZID=UTC:";
      && ls[4 + 7 * k] == "DTSTART" + sep + ps[k].aosStamp
      && ls[5 + 7 * k] == "DTEND" + sep + ps[k].losStamp
  {
    DocumentBlockAt(ps, obs, useLocalTime, sat, k);
    var ls := DocLines(ps, obs, useLocalTime, sat);
    assert ls[4 + 7 * k] == ls[3 + 7 * k .. 10 + 7 * k][1];
    assert ls[5 + 7 * k] == ls[3 + 7 * k .. 10 + 7 * k][2];
  }

  /** With no passes the document is the header followed directly by the footer. */
  lemma EmptyDocument(obs: Observer, useLocalTime: bool, sat: string)
    ensures Document([], obs, useLocalTime, sat) == Header + Footer
  {
    assert Events([], obs, TzSeparator(useLocalTime), sat) == [];
  }

  /** Every document opens with the header and closes with the footer. */
  lemma DocumentFrame(ps: seq<Pass>, obs: Observer, useLocalTime: bool, sat: string)
    ensures var d := Document(ps, obs, useLocalTime, sat);
      && |d| >= |Header| + |Footer|
      && d[..|Header|] == Header
      && d[|d| - |Footer|..] == Footer
  {
    var d := Document(ps, obs, useLocalTime, sat);
    var e := Events(ps, obs, TzSeparator(useLocalTime), sat);
    assert d == Header + e + Footer;
    assert d[..|Header|] == Header;
    assert d[|d| - |Footer|..] == Footer;
  }

  /** Appending a pass to the list appends its block to the document's events. */
  lemma EventsSnoc(ps: seq<Pass>, p: Pass, obs: Observer, sep: string, sat: string)
    ensures Events(ps + [p], obs, sep, sat) == Events(ps, obs, sep, sat) + Event(p, obs, sep, sat)
  {
    assert (ps + [p])[..|ps|] == ps;
  }

  /** The blocks of the first i + 1 passes are those of the first i and the block of pass i. */
  lemma EventsPrefixStep(ps: seq<Pass>, i: nat, obs: Observer, sep: string, sat: string)
    requires i < |ps|
    ensures Events(ps[..i + 1], obs, sep, sat) == Events(ps[..i], obs, sep, sat) + Event(ps[i], obs, sep, sat)
  {
    assert ps[..i + 1][..i] == ps[..i];
  }

  /** The document for a single pass is the header, that pass's block and the footer. */
  lemma SinglePassDocument(p: Pass, obs: Observer, useLocalTime: bool, sat: string)
    ensures Document([p], obs, useLocalTime, sat) ==
      Header + Event(p, obs, TzSeparator(useLocalTime), sat) + Footer
  {
    EventsSnoc([], p, obs, TzSeparator(useLocalTime), sat);
  }

  /** SUMMARY and UID use the caller's satellite label; the pass's own name never reaches the text. */
  lemma EventIgnoresSatname(p: Pass, name: string, obs: Observer, sep: string, sat: string)
    ensures Event(p.(satname := name), obs, sep, sat) == Event(p, obs, sep, sat)
  {
  }
}
