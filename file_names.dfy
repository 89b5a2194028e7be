/**
 * The file names the save dialogs propose and the path the writer opens.
 *
 * The default name is the satellite name followed by the orbit number (one
 * pass) or by "-passes" (a list of passes), cleaned in place by two calls of
 * GLib's `g_strdelimit`: spaces become '-', and each character of a fixed
 * punctuation list becomes '_'. The path is the folder, the directory
 * separator, the file name and the ".ics" extension.
 */
module FileNames {
  import opened Decimal

  /** G_DIR_SEPARATOR_S on the platforms this model covers. */
  const DirSeparator: char := '/'

  /** Replaced by '-' in a default file name. */
  const SpaceDelimiters: string := " "

  /** Replaced by '_' in a default file name. */
  const PunctuationDelimiters: string := "!?/\\()*&%$#@[]{}=+<>,.|:;"

  /** The character `g_strdelimit` leaves in place of `c`. */
  function DelimitChar(c: char, delimiters: string, newDelimiter: char): (r: char)
    ensures r == c || r == newDelimiter
    ensures r != c ==> c in delimiters
  {
    if c in delimiters then newDelimiter else c
  }

  /** The text `g_strdelimit` leaves: every delimiter replaced, every other character kept. */
  function Delimited(s: string, delimiters: string, newDelimiter: char): (r: string)
    ensures |r| == |s|
    ensures forall i :: 0 <= i < |s| ==> r[i] == DelimitChar(s[i], delimiters, newDelimiter)
  {
    if s == [] then []
    else [DelimitChar(s[0], delimiters, newDelimiter)] + Delimited(s[1..], delimiters, newDelimiter)
  }

  /** `g_strdelimit`: rewrites the buffer in place, one character at a time. */
  method StrDelimit(a: array<char>, delimiters: string, newDelimiter: char)
    modifies a
    ensures a[..] == Delimited(old(a[..]), delimiters, newDelimiter)
  {
    var i := 0;
    while i < a.Length
      invariant 0 <= i <= a.Length
      invariant forall k :: 0 <= k < i ==> a[k] == DelimitChar(old(a[k]), delimiters, newDelimiter)
      invariant forall k :: i <= k < a.Length ==> a[k] == old(a[k])
    {
      if a[i] in delimiters {
        a[i] := newDelimiter;
      }
      i := i + 1;
    }
  }

  /** A proposed file name after both cleaning passes. */
  function SanitizedName(s: string): (r: string)
    ensures |r| == |s|
    ensures forall i :: 0 <= i < |s| && s[i] != ' ' && s[i] !in PunctuationDelimiters ==> r[i] == s[i]
  {
    Delimited(Delimited(s, SpaceDelimiters, '-'), PunctuationDelimiters, '_')
  }

  /**
   * Cleaning keeps the length, turns each space into '-', each listed
   * punctuation character into '_', and keeps every other character.
   */
  lemma SanitizedNameAt(s: string)
    ensures |SanitizedName(s)| == |s|
    ensures forall i :: 0 <= i < |s| ==>
      SanitizedName(s)[i] ==
        if s[i] == ' ' then '-' else if s[i] in PunctuationDelimiters then '_' else s[i]
  {
    var t := Delimited(s, SpaceDelimiters, '-');
    forall i | 0 <= i < |s|
      ensures SanitizedName(s)[i] ==
        if s[i] == ' ' then '-' else if s[i] in PunctuationDelimiters then '_' else s[i]
    {
      assert '-' !in PunctuationDelimiters;
      assert t[i] == DelimitChar(s[i], SpaceDelimiters, '-');
    }
  }

  /** No space and no listed punctuation character survives cleaning. */
  lemma SanitizedNameIsClean(s: string)
    ensures forall i :: 0 <= i < |SanitizedName(s)| ==>
      SanitizedName(s)[i] != ' ' && SanitizedName(s)[i] !in PunctuationDelimiters
  {
    SanitizedNameAt(s);
    assert '-' !in PunctuationDelimiters && '_' !in PunctuationDelimiters;
  }

  /** Cleaning a cleaned name changes nothing. */
  lemma SanitizedNameIdempotent(s: string)
    ensures SanitizedName(SanitizedName(s)) == SanitizedName(s)
  {
    var t := SanitizedName(s);
    SanitizedNameIsClean(s);
    SanitizedNameAt(t);
  }

  /** Copies a string into a fresh character buffer, as `g_strdup_printf` does. */
  method ToBuffer(s: string) returns (a: array<char>)
    ensures fresh(a) && a[..] == s
  {
    a := new char[|s|](i requires 0 <= i < |s| => s[i]);
  }

  /** The default name for one pass: "<satellite name>-<orbit>", cleaned. */
  method DefaultPassFileName(satname: string, orbit: int) returns (name: string)
    ensures name == SanitizedName(satname + "-" + IntDecimal(orbit))
  {
    var buf := ToBuffer(satname + "-" + IntDecimal(orbit));
    StrDelimit(buf, SpaceDelimiters, '-');
    StrDelimit(buf, PunctuationDelimiters, '_');
    name := buf[..];
  }

  /** The default name for a list of passes: "<satellite>-passes", cleaned. */
  method DefaultPassesFileName(sat: string) returns (name: string)
    ensures name == SanitizedName(sat + "-passes")
  {
    var buf := ToBuffer(sat + "-passes");
    StrDelimit(buf, SpaceDelimiters, '-');
    StrDelimit(buf, PunctuationDelimiters, '_');
    name := buf[..];
  }

  /** The path the writer opens: folder, separator, file name, ".ics". */
  function FullPath(savedir: string, savefile: string): (path: string)
    ensures |path| == |savedir| + 1 + |savefile| + 4
    ensures path[..|savedir|] == savedir
    ensures path[|savedir|] == DirSeparator
    ensures path[|savedir| + 1 .. |savedir| + 1 + |savefile|] == savefile
    ensures path[|path| - 4..] == ".ics"
  {
    savedir + [DirSeparator] + savefile + ".ics"
  }

  /** Within one folder, different file names give different paths. */
  lemma FullPathInjective(savedir: string, f1: string, f2: string)
    requires FullPath(savedir, f1) == FullPath(savedir, f2)
    ensures f1 == f2
  {
    var p := FullPath(savedir, f1);
    assert |f1| == |f2|;
    assert f1 == p[|savedir| + 1 .. |savedir| + 1 + |f1|];
  }
}
