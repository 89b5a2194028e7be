# gpredict iCalendar export, modelled in Dafny

gpredict can save predicted satellite passes as an iCalendar (`.ics`) file,
either one pass or a list of passes. Two writers in `src/save-ical.c` do the work.

Each writer:
- checks the file-format selector;
- assembles the output path as folder, directory separator, file name and `.ics`;
- chooses the separator that follows `DTSTART` and `DTEND`: `:` for local time, `;TZID=UTC:` for UTC;
- grows the text by appending: a fixed `VCALENDAR` header, one seven-line `VEVENT` block per pass in list order, then the footer;
- hands the path and text to the file writer once.

The save dialogs propose a default file name. For one pass it is the pass's own satellite name (`pass->satname`), a `-`, and the orbit number printed with `%d`. For a list it is the caller's satellite label `sat` followed by `-passes`. Two in-place `g_strdelimit` calls clean it: spaces become `-`, and each character of `!?/\()*&%$#@[]{}=+<>,.|:;` becomes `_`.

The model has four modules:

- `Decimal` (`decimal.dfy`): printf's `%d` and `%02d` for integers. It proves that they read back to the number printed.
- `ICalendar` (`icalendar.dfy`): the document as a specification. It defines:
  - the pass and observer values;
  - the duration split;
  - the seven lines of an event block and the whole document as lines (`DocLines`) and as text (`Document`);
  - a reader's view that cuts text at its line feeds (`SplitLines`).

  Every document property is proved here.
- `FileNames` (`file_names.dfy`): `g_strdelimit` as an in-place loop over a character array, the two default file names, and the output path.
- `SaveIcal` (`save_ical.dfy`): the two writers as imperative methods.
  - The list writer's loop keeps "the buffer is the header followed by the blocks of the passes handled so far".
  - Each method's result is a `WriteFile(path, contents)` action standing for the single `save_to_file` call, or `InvalidFormat(format)` for the logged error.

Lines end in a bare line feed. No line is folded. These follow the code, not the CRLF and 75-octet folding that section 3.1 of RFC 5545 asks for.

## Model

| member | source | states |
|---|---|---|
| SaveIcal.SaveFormatIcs | src/save-ical.c:406 | The one format selector for which the writers build and write a calendar. |
| SaveIcal.Outcome | src/save-ical.c:516-524 | What a writer call leads to: one `save_to_file` of a path and a text, or the logged invalid-format error with the rejected selector. |
| SaveIcal.SavePassesIcal | src/save-ical.c:392-526 | For the iCalendar format it writes once, to `savedir/savefile.ics`, exactly the header, one block per pass in list order, and the footer, with the separator that the local-time flag selects. For any other format the only outcome is the logged invalid-format error and nothing is written. |
| SaveIcal.SavePassIcal | src/save-ical.c:547-679 | Writes exactly the text `SavePassesIcal` writes for the one-element list `[pass]`, to the same path. Any other format gives only the invalid-format error. |
| SaveIcal.AppendEvent | src/save-ical.c:435-506 | Appending the seven lines one at a time, with the description built piece by piece, extends the buffer by exactly that pass's block. |
| SaveIcal.SplitDuration | src/save-ical.c:474-482 | Successive reduction gives hours, then minutes below 60, then seconds below 60, with 3600h + 60m + s equal to the total. The result agrees with `Split`. |
| SaveIcal.AppendedEvent | src/save-ical.c:433-507 | One loop turn keeps the invariant: the header plus blocks 0..i-1, extended by block i, is the header plus blocks 0..i. |
| SaveIcal.DescriptionText | src/save-ical.c:484-496 | The description the writer assembles from the split duration and the two azimuths equals the `Description` value. |
| ICalendar.TzSeparator | src/save-ical.c:414-419 | The text after `DTSTART` and `DTEND` always ends in the `:` that opens the value and has no line feed. It is the one-character `:` exactly when local time is selected; otherwise it is `;TZID=UTC:`. |
| ICalendar.Description | src/save-ical.c:484-498 | The `DESCRIPTION` value opens with `Duration: ` followed by the five-character `MM:SS`. Its length is fixed apart from the two azimuth strings: three labelled parts, each ended by the two-character `\n` escape. |
| ICalendar.EventLines | src/save-ical.c:437-503 | A block has seven lines, the first `BEGIN:VEVENT` and the last `END:VEVENT`. The full content is given by `EventText`. |
| ICalendar.Event | src/save-ical.c:437-503 | The text of one pass's block is its seven lines, each followed by a line feed. It has no contract of its own; `EventText` states it written out. |
| ICalendar.Events | src/save-ical.c:432-507 | The text of the blocks of all passes, in list order. It has no contract of its own; `EventsText`, `EventsPrefixStep` and `EventsSnoc` state its properties. |
| ICalendar.Document | src/save-ical.c:425-512 | The header, the blocks of all passes, then the footer. It has no contract of its own; `DocumentFrame`, `DocumentText` and `DocumentReadsBack` state its properties. |
| ICalendar.DocLines | src/save-ical.c:425-509 | The document's lines: 7·n + 4 of them for n passes. |
| ICalendar.Header | src/save-ical.c:425 | The constant header text `BEGIN:VCALENDAR`, `VERSION:2.0`, `CALSCALE:GREGORIAN`, each followed by a line feed. `HeaderFooterText` ties it to the header lines. |
| ICalendar.Footer | src/save-ical.c:509 | The constant footer text `END:VCALENDAR` followed by a line feed. |
| ICalendar.Split | src/save-ical.c:476-482 | Minutes < 60, seconds < 60, and 3600·hours + 60·minutes + seconds = total. |
| ICalendar.SplitUnique | src/save-ical.c:476-482 | Any hours/minutes/seconds triple with both bounds and the same sum is the split, so the split is the only one. |
| ICalendar.DurationText | src/save-ical.c:484 | `MM:SS` is five characters: two digits, a colon, two digits, with no line feed. MM is the minutes and SS the seconds of `Split(total)`, both below 60, so 60·MM + SS equals the total seconds modulo one hour. |
| ICalendar.DurationOfOneMinute | src/save-ical.c:476-484 | A pass of 60 seconds shows as `01:00`. |
| ICalendar.DurationTextModHour | src/save-ical.c:478-484 | Two durations render the same text if and only if they agree modulo 3600 seconds. The hours are computed but never shown. |
| ICalendar.SplitJoinLines | src/save-ical.c:437-509 | Lines without line feeds, each terminated by one, cut back at the line feeds into exactly those lines. |
| ICalendar.JoinLinesAppend | src/save-ical.c:433-509 | Joining concatenated line lists is concatenating their texts. Appending block after block therefore builds the joined document. |
| ICalendar.EventsLines | src/save-ical.c:432-507 | The blocks of n passes are 7·n lines. |
| ICalendar.EventText | src/save-ical.c:437-503 | One block is `BEGIN:VEVENT`, `DTSTART`+sep+AOS, `DTEND`+sep+LOS, `SUMMARY:`+label+` [`+elevation+`°]`, `UID:`+label+orbit+hour+`@`+lat+lon, `DESCRIPTION:`+description, `END:VEVENT`, in this order, each followed by a line feed. |
| ICalendar.HeaderFooterText | src/save-ical.c:425-509 | The header text is the three lines `BEGIN:VCALENDAR`, `VERSION:2.0`, `CALSCALE:GREGORIAN`, and the footer is `END:VCALENDAR`, each followed by a line feed. |
| ICalendar.EventsText | src/save-ical.c:433-507 | The text of all blocks is their lines joined. |
| ICalendar.DocumentText | src/save-ical.c:425-512 | The document text is the document's lines joined, each followed by a line feed. |
| ICalendar.DocumentReadsBack | src/save-ical.c:425-512 | If the inputs contain no line feeds, cutting the document at its line feeds gives exactly its lines: header, blocks, footer. |
| ICalendar.DocLinesLayout | src/save-ical.c:425-509 | For n passes the document has 7·n + 4 lines. The first three are the header lines and the last is the footer line. |
| ICalendar.EventBlockAt | src/save-ical.c:432-507 | Lines 7k..7k+6 of the blocks are the block built from pass k. No block is dropped, added or reordered. |
| ICalendar.DocumentBlockAt | src/save-ical.c:425-507 | Lines 3+7k..9+7k of the document are the block of pass k. |
| ICalendar.FramedBlockAt | src/save-ical.c:425-507 | For any separator, behind the three header lines, lines 3+7k..9+7k are the block of pass k. |
| ICalendar.DateLinesAt | src/save-ical.c:414-452 | In every block, `DTSTART` and `DTEND` carry the same separator: `:` exactly when local time is selected, `;TZID=UTC:` exactly otherwise. |
| ICalendar.EventLinesMarkers | src/save-ical.c:437-503 | A block holds exactly one `BEGIN:VEVENT` line and exactly one `END:VEVENT` line. |
| ICalendar.EventsLinesMarkers | src/save-ical.c:432-507 | The blocks of n passes hold exactly n `BEGIN:VEVENT` and n `END:VEVENT` lines. |
| ICalendar.DocLinesMarkers | src/save-ical.c:425-509 | The whole document holds exactly n `BEGIN:VEVENT` and n `END:VEVENT` lines. |
| ICalendar.FrameLinesAreNotMarkers | src/save-ical.c:425-509 | Neither the header nor the footer contains a `BEGIN:VEVENT` or `END:VEVENT` line. |
| ICalendar.DescriptionHasNoLineFeed | src/save-ical.c:484-498 | With azimuth strings that contain no line feed, the `DESCRIPTION` value contains none. Its parts are joined by the two-character `\n` escape. |
| ICalendar.EventLinesClean | src/save-ical.c:437-503 | With inputs free of line feeds, no line of a block contains one. |
| ICalendar.EventsLinesClean | src/save-ical.c:433-507 | The same holds for the blocks of every pass in the list. |
| ICalendar.DocLinesClean | src/save-ical.c:425-509 | The same holds for every line of the document. |
| ICalendar.EmptyDocument | src/save-ical.c:425-509 | With no passes, the document is the header followed directly by the footer. |
| ICalendar.DocumentFrame | src/save-ical.c:425-509 | Every document starts with the header and ends with the footer. |
| ICalendar.EventsSnoc | src/save-ical.c:433-507 | Adding a pass at the end of the list adds its block at the end of the events. |
| ICalendar.EventsPrefixStep | src/save-ical.c:433-507 | The blocks of the first i+1 passes are the blocks of the first i passes followed by the block of pass i. |
| ICalendar.SinglePassDocument | src/save-ical.c:578-661 | The document for one pass is the header, that pass's block, and the footer. |
| ICalendar.EventIgnoresSatname | src/save-ical.c:456-467 | `SUMMARY` and `UID` use the caller's satellite label. Changing the pass's own satellite name changes no block. |
| Decimal.DigitChar | src/save-ical.c:467 | The character for a digit below ten is a digit character with that value. |
| Decimal.NatDigits | src/save-ical.c:467 | `%d` of a natural number is at least one digit. It has no leading zero unless the number is 0, and it is a single digit exactly for numbers below ten. |
| Decimal.ValueOfNatDigits | src/save-ical.c:467 | The digits `%d` prints read back to the number printed. |
| Decimal.IntDecimal | src/save-ical.c:467 | `%d` prints only digits, apart from a leading minus sign. |
| Decimal.IntDecimalRoundTrip | src/save-ical.c:467 | Parsing the `%d` rendering of any integer gives the integer back. |
| Decimal.IntDecimalInjective | src/save-ical.c:467 | Different orbit numbers never print the same. |
| Decimal.Pad2 | src/save-ical.c:484 | `%02d` of a number below 100 is exactly two digits that read back to the number. |
| FileNames.Delimited | src/save-ical.c:154-155 | Keeps the length and replaces each character that is a delimiter with the new delimiter, leaving every other character unchanged. |
| FileNames.DelimitChar | src/save-ical.c:154-155 | The character `g_strdelimit` leaves is either the old one or the new delimiter, and a character changes only when it is a delimiter. |
| FileNames.SanitizedName | src/save-ical.c:153-155 | Cleaning keeps the length and leaves every character that is neither a space nor listed punctuation unchanged. `SanitizedNameAt` gives the full mapping. |
| FileNames.StrDelimit | src/save-ical.c:154-155 | Rewriting the buffer in place leaves it holding `Delimited` of its old contents. |
| FileNames.SanitizedNameAt | src/save-ical.c:153-155 | Cleaning keeps the length. Each space becomes `-`, each listed punctuation character becomes `_`, and every other character is kept. |
| FileNames.SanitizedNameIsClean | src/save-ical.c:153-155 | No space and no listed punctuation character remains after cleaning. |
| FileNames.SanitizedNameIdempotent | src/save-ical.c:153-155 | Cleaning a cleaned name changes nothing. |
| FileNames.ToBuffer | src/save-ical.c:153 | The new buffer holds exactly the formatted name. |
| FileNames.DefaultPassFileName | src/save-ical.c:153-155 | The proposed name for one pass is the cleaned `<satellite name>-<orbit>`. |
| FileNames.DefaultPassesFileName | src/save-ical.c:279-281 | The proposed name for a list of passes is the cleaned `<satellite>-passes`. |
| FileNames.FullPath | src/save-ical.c:410 | The path is the folder, then the separator `/`, then the file name, then `.ics`, with the length of the four parts together. |
| FileNames.FullPathInjective | src/save-ical.c:410 | Within one folder, different file names give different paths. |

## Left out

- The GTK dialogs that ask for the folder and file name, and their response handling, are not modelled. Only the default-name cleaning inside them is. The dialogs are user interface.
- `file_changed`, the live filter on the file-name entry, is left out. It depends on `gpredict_legal_char`, which is not part of this model, and its cursor editing has no stated result.
- `save_to_file` is not modelled; the writers return a `WriteFile` action instead. It is file I/O and error dialogs.
- The settings reads behind the local-time flag, the folder and the file name are not modelled. The flag, folder and name are parameters.
- Logging of the invalid-format error is not modelled. It is represented by the `InvalidFormat` outcome.
- Memory management (`g_strdup` and `g_free`) is left out. It has no effect on the text.
- `daynum_to_str` and the floating-point conversions `%.0f`, `%6.2f` and `%f` are opaque rendered strings in `Pass` and `Observer`. They are outside code and floating-point formatting. Rounding of the elevation and the width of the azimuth fields are therefore not modelled.
- The floating-point step `(los - aos) * 86400` and its `(guint)` cast are left out. The duration enters as the resulting whole number of seconds.
- The writers do not model unsigned 32-bit wrap-around; durations and orbit numbers are unbounded integers. The range where wrap-around would occur is far beyond any pass length or orbit count.
- `SaveIcal.SavePassesIcal` and `SaveIcal.SavePassIcal` model the pass list as a sequence, not a `GSList`, which makes `g_slist_nth_data` plain indexing.
- The model works on characters, not bytes. The degree sign in `SUMMARY` is one character here and two bytes of UTF-8 in the file.
- `FileNames.FullPath` uses `/` as the directory separator, which is the non-Windows `G_DIR_SEPARATOR_S`. A missing (NULL) folder is not modelled.
- The duration shows only minutes and seconds. The hours are computed but dropped, so a 65-minute pass reads `05:00`. The model keeps this behaviour and states it as `ICalendar.DurationTextModHour`.
- The file-name entry caps the proposed name at 100 characters (`gtk_entry_set_max_length`). The cap belongs to the dialog code, which is not modelled, so `FileNames.DefaultPassFileName` and `FileNames.DefaultPassesFileName` produce the uncapped name.
