/**
 * The two writers of save-ical.c: one for a list of passes and one for a
 * single pass. Each checks the format selector, assembles the path, picks
 * the time-zone separator, grows the calendar text by appending, and hands
 * path and text to the file sink once. Here the hand-over is the returned
 * `WriteFile` action; an unknown format yields `InvalidFormat`, which the
 * source only logs.
 */
module SaveIcal {
  import opened Decimal
  import opened ICalendar
  import opened FileNames

  /** The one format selector the writers accept. */
  const SaveFormatIcs: int := 1

  /** What a writer call leads to. */
  datatype Outcome =
    | WriteFile(path: string, contents: string)  // save_to_file(parent, fname, data), called once
    | InvalidFormat(format: int)                 // logged; nothing is built or written

  /**
   * The duration split done on `guint` values: hours first, then minutes,
   * each time reducing the running number of seconds.
   */
  method SplitDuration(total: nat) returns (h: nat, m: nat, s: nat)
    ensures Hms(h, m, s) == Split(total)
    ensures m < 60 && s < 60 && 3600 * h + 60 * m + s == total
  {
    s := total;
    h := s / 3600;
    s := s - 3600 * h;
    m := s / 60;
    s := s - 60 * m;
  }

  /** Appends one pass's VEVENT block to the text built so far. */
  method AppendEvent(data: string, p: Pass, obs: Observer, timezone: string, sat: string)
    returns (out: string)
    ensures out == data + Event(p, obs, timezone, sat)
  {
    out := data + "BEGIN:VEVENT" + "\n";
    out := out + ("DTSTART" + timezone + p.aosStamp) + "\n";
    out := out + ("DTEND" + timezone + p.losStamp) + "\n";
    out := out + ("SUMMARY:" + sat + " [" + p.maxEl + "°]") + "\n";
    out := out + ("UID:" + sat + IntDecimal(p.orbit) + p.aosHour + "@" + obs.lat + obs.lon) + "\n";

    var h, m, s := SplitDuration(p.duration);
    var line := "Duration: " + Pad2(m) + ":" + Pad2(s) + "\\n";
    line := line + "AOS Azimuth:  " + p.aosAz + "\\n";
    line := line + "LOS Azimuth:  " + p.losAz + "\\n";
    DescriptionText(p, h, m, s, line);

    out := out + ("DESCRIPTION:" + line) + "\n";
    out := out + "END:VEVENT" + "\n";
    EventText(p, obs, timezone, sat);
    AppendSeven(data, "BEGIN:VEVENT",
      "DTSTART" + timezone + p.aosStamp,
      "DTEND" + timezone + p.losStamp,
      "SUMMARY:" + sat + " [" + p.maxEl + "°]",
      "UID:" + sat + IntDecimal(p.orbit) + p.aosHour + "@" + obs.lat + obs.lon,
      "DESCRIPTION:" + line,
      "END:VEVENT");
  }

  /** The description line as the writer builds it, piece by piece. */
  lemma DescriptionText(p: Pass, h: nat, m: nat, s: nat, line: string)
    requires Hms(h, m, s) == Split(p.duration)
    requires line == "Duration: " + Pad2(m) + ":" + Pad2(s) + "\\n" +
      "AOS Azimuth:  " + p.aosAz + "\\n" + "LOS Azimuth:  " + p.losAz + "\\n"
    ensures line == Description(p)
  {
  }

  /** One turn of the writer's loop keeps "header, then the blocks of the passes so far". */
  lemma AppendedEvent(ps: seq<Pass>, i: nat, obs: Observer, sep: string, sat: string,
                      before: string, after: string)
    requires i < |ps|
    requires before == Header + Events(ps[..i], obs, sep, sat)
    requires after == before + Event(ps[i], obs, sep, sat)
    ensures after == Header + Events(ps[..i + 1], obs, sep, sat)
  {
    EventsPrefixStep(ps, i, obs, sep, sat);
  }

  /** save_passes_ical_exec: the calendar for a list of passes, in list order. */
  method SavePassesIcal(passes: seq<Pass>, obs: Observer, savedir: string, savefile: string,
                        format: int, useLocalTime: bool, sat: string)
    returns (r: Outcome)
    ensures format == SaveFormatIcs ==>
      r == WriteFile(FullPath(savedir, savefile), Document(passes, obs, useLocalTime, sat))
    ensures format != SaveFormatIcs ==> r == InvalidFormat(format)
  {
    if format != SaveFormatIcs {
      return InvalidFormat(format);
    }
    var fname := savedir + [DirSeparator] + savefile + ".ics";

    var timezone: string;
    if useLocalTime {
      timezone := ":";
    } else {
      timezone := ";TZID=UTC:";
    }

    var data := "BEGIN:VCALENDAR\n" + "VERSION:2.0\n" + "CALSCALE:GREGORIAN\n";
    var n := |passes|;
    var i := 0;
    assert passes[..0] == [];
    while i < n
      invariant 0 <= i <= n
      invariant data == Header + Events(passes[..i], obs, timezone, sat)
    {
      ghost var before := data;
      data := AppendEvent(data, passes[i], obs, timezone, sat);
      AppendedEvent(passes, i, obs, timezone, sat, before, data);
      i := i + 1;
    }
    assert passes[..n] == passes;
    data := data + "END:VCALENDAR\n";
    r := WriteFile(fname, data);
  }

  /** save_pass_ical_exec: the calendar for one pass, written out without a loop. */
  method SavePassIcal(pass: Pass, obs: Observer, savedir: string, savefile: string,
                      format: int, useLocalTime: bool, sat: string)
    returns (r: Outcome)
    ensures format == SaveFormatIcs ==>
      r == WriteFile(FullPath(savedir, savefile), Document([pass], obs, useLocalTime, sat))
    ensures format != SaveFormatIcs ==> r == InvalidFormat(format)
  {
    if format != SaveFormatIcs {
      return InvalidFormat(format);
    }
    var fname := savedir + [DirSeparator] + savefile + ".ics";

    var timezone: string;
    if useLocalTime {
      timezone := ":";
    } else {
      timezone := ";TZID=UTC:";
    }

    var data := "BEGIN:VCALENDAR\n" + "VERSION:2.0\n" + "CALSCALE:GREGORIAN\n";
    data := AppendEvent(data, pass, obs, timezone, sat);
    data := data + "END:VCALENDAR\n";
    SinglePassDocument(pass, obs, useLocalTime, sat);
    r := WriteFile(fname, data);
  }
}
