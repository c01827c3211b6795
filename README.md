# Lyric synchronisation engine of musicfox-gnome-lyric, in Dafny

This project models the engine that both `my_backend` programs of
musicfox-gnome-lyric run: the D-Bus service (`backend/my_backend/dbus_service.cpp`)
and the terminal listener (`backend/my_backend/mpris_listener.cpp`). Each one
follows an MPRIS music player and does three things:

- **LRC parsing** (`parse_lrc`). A lyric blob is split into lines the way
  `std::getline` splits it. Each line must match
  `\[(\d{2}):(\d{2})\.(\d{2,3})\](.*)` in full. A matching line becomes a
  (timestamp in µs, trimmed text) pair, unless its text trims to nothing. The
  pairs are then sorted by timestamp with `std::sort`. The two files hold the
  same code (`dbus_service.cpp:49-61`, `mpris_listener.cpp:73-93`), so the
  model defines it once, in module `Lrc`.
- **Merging a `PropertiesChanged` payload** (`on_any_signal`). The handler
  builds a fresh track record. It reads the playing flag from
  `PlaybackStatus`, or inherits it when that is absent. With a `Metadata`
  dictionary, it scans the entries for the keys of the Metadata section of
  the MPRIS D-Bus Interface Specification v2.2 (`mpris:trackid`,
  `xesam:title`, `xesam:artist`, `mpris:length`, `xesam:asText`). Without
  one, it inherits the track fields and the lyrics. It then overwrites the
  snapshot and the lyrics wholesale. A new track is one whose merged id is
  non-empty and differs from the current id. Only a new track resets the
  lyric state and resyncs the position. The dictionary scan is shared in
  module `Mpris`. The two handlers are `DbusService.Engine.ApplyChange` and
  `MprisListener.Engine.ApplyChange`.
- **Prediction and resolution** (`sync_position_from_dbus`,
  `predictive_update`, `predictive_update_and_display`). A successful
  position read stores a (position, time) anchor. Each display tick
  predicts the position: the anchor while paused, the anchor plus the
  elapsed time while playing. It then scans the sorted lyrics for the last
  line that has started, stopping at the first line that has not. This is
  module `Prediction`, which both engines use.

The two engines are classes whose fields are the programs' globals:

- The service keeps the **text** of the active line. Its handler also makes
  a play/pause comparison, but that comparison reads the snapshot it has
  just overwritten (`dbus_service.cpp:124-136`), so it never fires. The model
  proves that branch unreachable. Its `ApplyChange` contract states that
  nothing but a new track changes the anchor.
- The listener keeps the **index** of the active line. Its snapshot also
  has a `position_us`, which every handled signal resets to 0 and a
  successful resync sets. Its tick leaves the index alone while there are no
  lyrics. The index can therefore outlive the lyrics it pointed into, which
  is why the display reads a line only through a bounds guard
  (`mpris_listener.cpp:104`).

Inputs from outside the engine are parameters:

- a signal already decoded into `Mpris.Signal` (member name, optional
  status string, optional metadata entries);
- the reply to the player's `Position` read, as `Option<int>` (None when
  the call fails);
- the monotonic clock, as an integer `now` in microseconds, with
  `now >= syncTime`.

Decisions about the pattern and the sort:

- Under the ECMAScript grammar of `std::regex`, `.` matches neither `'\r'`
  nor `'\n'`. The model follows this, so a line that still ends in `'\r'`
  (a CRLF blob) does not match at all and is dropped. Trimming `'\r'` from
  the content therefore never has an effect. `Lrc.DroppedLineExamples`
  records this.
- `std::sort` is not stable. The parser's contract says only that the result
  is sorted and is a permutation of the matched entries. It says nothing about
  the order of lines with equal timestamps.

The model follows the code where the code behaves differently from what it
evidently means to do:

- The comment at `dbus_service.cpp:132` says the service resyncs when only
  the play/pause state changes. The check below it compares the state after
  the snapshot has already been overwritten, so it never fires
  (`DbusService.Engine.ApplyChange` proves the branch unreachable). The
  listener has no such check.

Behaviour worth knowing:

- Lines with equal timestamps keep no particular order: the code uses
  `std::sort`, which is not stable.
- Each `Metadata` dictionary is decoded into clean temporaries
  (`dbus_service.cpp:82`, `mpris_listener.cpp:127`), so a key it lacks
  leaves its field ""/0, and a dictionary without a string `xesam:asText`
  leaves no lyrics (`Mpris.AbsentKeysReset`).
- With empty lyrics the listener leaves its line index as it was, rather
  than setting it to -1 (`mpris_listener.cpp:211`); the display guard at
  `mpris_listener.cpp:104` admits only an index inside the current lyrics.

## Model

| member | source | states |
|---|---|---|
| `Lrc.LineEnd` | backend/my_backend/dbus_service.cpp:51 | `getline` stops at the first newline at or after the read position, or at the end of the blob |
| `Lrc.LinesFrom` | backend/my_backend/dbus_service.cpp:51 | no extracted line contains a newline |
| `Lrc.LinesJoin` | backend/my_backend/dbus_service.cpp:51 | splitting into lines loses only the separators: joining the lines with newlines (plus a final newline if the blob had one) gives the blob back |
| `Lrc.DigitsValue` | backend/my_backend/dbus_service.cpp:53 | `stoll` of n decimal digits is below 10^n |
| `Lrc.Timestamp` | backend/my_backend/dbus_service.cpp:53-54 | the formula `(mm*60+ss)*1e6 + f*1000` (2-digit fraction times 10) lies in [0, 6039999000] |
| `Lrc.MatchLrc` | backend/my_backend/dbus_service.cpp:50-52 | a full match has the tag head, a 10- or 11-character prefix, content that is the rest of the line without CR or LF, and a timestamp in range |
| `Lrc.RenderedLineMatches` | backend/my_backend/dbus_service.cpp:50-54 | every line `[mm:ss.ff]content` of the pattern's shape matches, giving the formula's timestamp and the content verbatim |
| `Lrc.MatchedLineIsRendered` | backend/my_backend/dbus_service.cpp:50-54 | conversely, every matching line has that shape, and its timestamp is the formula applied to its fields |
| `Lrc.FractionExamples` | backend/my_backend/dbus_service.cpp:53 | `[00:01.50]x` and `[00:01.500]x` both give 1,500,000 µs with content "x" |
| `Lrc.DroppedLineExamples` | backend/my_backend/dbus_service.cpp:52-56 | a tag followed only by blanks yields no line; a line ending in CR and a line with a one-digit fraction do not match |
| `Lrc.TrimLeft` | backend/my_backend/dbus_service.cpp:55 | the result is a suffix, everything removed is one of " \t\r\n", and the result does not start with one |
| `Lrc.TrimRight` | backend/my_backend/dbus_service.cpp:55 | the result is a prefix, everything removed is blank, and the result does not end with a blank |
| `Lrc.Trim` | backend/my_backend/dbus_service.cpp:55-56 | the result is trimmed, and it is empty exactly when the content is blank throughout |
| `Lrc.TrimIsPiece` | backend/my_backend/dbus_service.cpp:55 | the trimmed text is a contiguous piece of the content |
| `Lrc.LineEntry` | backend/my_backend/dbus_service.cpp:52-56 | an entry comes only from a matching line, and is a good line: non-empty trimmed text and a timestamp in range |
| `Lrc.LineEntryCharacterised` | backend/my_backend/dbus_service.cpp:52-56 | a line yields an entry exactly when it matches and its content has a non-blank character; the entry is the match's timestamp with the trimmed content |
| `Lrc.EntriesMember` | backend/my_backend/dbus_service.cpp:51-57 | a lyric line is collected if and only if some line of the blob contributes it |
| `Lrc.EntriesAreGood` | backend/my_backend/dbus_service.cpp:53-56 | every collected line has non-empty trimmed text and an in-range timestamp |
| `Lrc.CollectEntries` | backend/my_backend/dbus_service.cpp:51-58 | the `getline` loop pushes back exactly the entries of the lines, in the order of the lines |
| `Lrc.SortByTimestamp` | backend/my_backend/dbus_service.cpp:59 | in place: the array ends sorted by timestamp and is a permutation of its old contents |
| `Lrc.ParseLrc` | backend/my_backend/dbus_service.cpp:49-61 | the result is sorted, is a permutation of the entries of the matching lines in order, and every line is non-empty, trimmed and in range |
| `Mpris.LastTaken` | backend/my_backend/dbus_service.cpp:99-109 | the entry that ends up in a field is the last one the scan takes for that field, or none |
| `Mpris.Decode` | backend/my_backend/dbus_service.cpp:99-109 | each field holds the value of the last entry taken for it, with 0 for a length that is not an int64 |
| `Mpris.AbsentKeysReset` | backend/my_backend/dbus_service.cpp:83-110 | a key the dictionary lacks leaves its field ""/0, and leaves no lyric text; so does an artist that is not a non-empty string array, and a lyric text that is not a string |
| `Mpris.ArtistFromStringArray` | backend/my_backend/dbus_service.cpp:102 | a non-empty artist is the first element of a non-empty string array under `xesam:artist` |
| `Mpris.DecodeStepTrack` | backend/my_backend/dbus_service.cpp:99-102 | one more entry overwrites the id, title, artist or length exactly when it is taken for that field |
| `Mpris.DecodeStepLyrics` | backend/my_backend/dbus_service.cpp:103-106 | one more entry replaces the lyric text exactly when it is a string under `xesam:asText` |
| `Mpris.ScanEntry` | backend/my_backend/dbus_service.cpp:98-107 | one loop iteration: the entry overwrites the field its key selects, an `xesam:asText` string is parsed, and nothing else changes |
| `Mpris.ScanMetadata` | backend/my_backend/dbus_service.cpp:95-110 | the loop leaves the decoded fields, and lyrics that are empty without an `xesam:asText` string or a parse of the last one |
| `Prediction.Predict` | backend/my_backend/dbus_service.cpp:156-161 | while paused the prediction is the anchor; while playing it never falls behind the anchor after the anchor time |
| `Prediction.PredictFrozenWhilePaused` | backend/my_backend/dbus_service.cpp:156-161 | while paused the predicted position is the anchor position |
| `Prediction.PredictLinearWhilePlaying` | backend/my_backend/dbus_service.cpp:156-161 | while playing the prediction equals the anchor at the anchor time and advances exactly with the clock |
| `Prediction.ActiveIndex` | backend/my_backend/dbus_service.cpp:164-168 | the scan's index: every line up to it has started, and the next one has not |
| `Prediction.ActiveIndexIsLastStarted` | backend/my_backend/dbus_service.cpp:164-168 | on sorted lyrics, a line has started if and only if its index is at most the scan's index |
| `Prediction.NoActiveLine` | backend/my_backend/dbus_service.cpp:162-170 | the index is -1 exactly when there are no lyrics or the first line has not started |
| `Prediction.ResolveIndex` | backend/my_backend/dbus_service.cpp:164-168 | the loop with its break computes the scan's index |
| `Prediction.ActiveText` | backend/my_backend/dbus_service.cpp:162-170 | with no active line the text is ""; a non-empty text is that of a line that has started |
| `Prediction.ActiveTextCharacterised` | backend/my_backend/dbus_service.cpp:162-171 | the resolved text is "" exactly when no line has started, and otherwise is the text of the last started line |
| `Prediction.ResolutionExamples` | backend/my_backend/dbus_service.cpp:164-168 | lines at 0, 1 and 2 s: 999,999 µs gives index 0, 1,000,000 µs gives 1, -5 gives -1 |
| `Prediction.PlayingScanExample` | backend/my_backend/dbus_service.cpp:156-168 | anchored at 0 while playing, 3.5 s later the prediction is 3,500,000 µs and the scan picks the second of two lines (0 s, 3 s) |
| `DbusService.Merge` | backend/my_backend/dbus_service.cpp:83-118 | no status keeps the playing flag; without Metadata only the flag can change; with Metadata the id, artist, title and duration are the decoded dictionary's |
| `DbusService.IsNewTrack` | backend/my_backend/dbus_service.cpp:121 | a new track has a non-empty id and differs from the current snapshot |
| `DbusService.MergePlaying` | backend/my_backend/dbus_service.cpp:87-93 | no status keeps the playing flag; a status sets it exactly when it is "Playing" |
| `DbusService.MergeInheritsWithoutMetadata` | backend/my_backend/dbus_service.cpp:111-118 | without Metadata, the id, artist, title and duration are inherited, and the track is never new |
| `DbusService.MergeResetsFromMetadata` | backend/my_backend/dbus_service.cpp:95-110 | with Metadata, each key it lacks resets its field to ""/0 |
| `DbusService.Engine.constructor` | backend/my_backend/dbus_service.cpp:18-22 | the globals start empty, with the anchor at (0, 0) |
| `DbusService.Engine.Resync` | backend/my_backend/dbus_service.cpp:143-154 | a successful read sets the anchor to (read position, now); a failed read changes neither part |
| `DbusService.Engine.ApplyChange` | backend/my_backend/dbus_service.cpp:75-140 | other signals change nothing; otherwise the snapshot is the merge, lyrics are inherited or re-parsed, a new track clears the text and resyncs, and nothing else (no play/pause change) touches the text or the anchor |
| `DbusService.Engine.Tick` | backend/my_backend/dbus_service.cpp:155-174 | the displayed position is the prediction from the anchor, and the stored text is that of the last started line, or "" |
| `MprisListener.Merge` | backend/my_backend/mpris_listener.cpp:128-166 | the position restarts at 0; no status keeps the playing flag; without Metadata only the flag and the position can change; with Metadata the descriptive fields are the decoded dictionary's |
| `MprisListener.IsNewTrack` | backend/my_backend/mpris_listener.cpp:169 | a new track has a non-empty id and differs from the current snapshot |
| `MprisListener.Shown` | backend/my_backend/mpris_listener.cpp:104 | a line is read exactly when the index lies in [0, size), and then it is that line's text |
| `MprisListener.MergeRules` | backend/my_backend/mpris_listener.cpp:127-166 | the same inheritance and reset rules as the service, and the snapshot's position always restarts at 0 |
| `MprisListener.Engine.constructor` | backend/my_backend/mpris_listener.cpp:36-40 | empty snapshot and lyrics, index -1, anchor at (0, 0) |
| `MprisListener.Engine.Resync` | backend/my_backend/mpris_listener.cpp:188-202 | a successful read sets the snapshot's position and the anchor together; a failed one changes none of them |
| `MprisListener.Engine.ApplyChange` | backend/my_backend/mpris_listener.cpp:111-186 | the snapshot and lyrics are replaced; only a new track resets the index to -1 and resyncs; otherwise the index and anchor are untouched |
| `MprisListener.Engine.DisplayedLyric` | backend/my_backend/mpris_listener.cpp:104-106 | a line is shown exactly when the index is inside the current lyrics, so a stale index is never read |
| `MprisListener.Engine.Tick` | backend/my_backend/mpris_listener.cpp:204-224 | the prediction uses only the anchor; with lyrics the index becomes the scan's index, and without lyrics it is kept; what is shown passes the display guard |

## Left out

- D-Bus transport: finding the player's bus name, subscribing to signals, the
  `Position` call and GVariant decoding, and `main`. Signals and replies
  arrive already decoded.
- A `Position` reply that holds something other than an int64:
  `g_variant_get_int64` then fails its type check and returns 0
  (`dbus_service.cpp:149`, `mpris_listener.cpp:195`), and the program
  anchors at (0, now). The reply arrives already decoded, so a caller
  expresses this case as `Resync(Some(0), now)`.
- A trackid or title whose value is not a string. The source then builds a
  `std::string` from NULL, which is undefined behaviour, so the handlers
  require string values for those two keys.
- Output sinks: `update_and_emit_signal`, the terminal printing of
  `display_full_info` except its index guard, and the "New Track Loaded"
  message (`mpris_listener.cpp:171-173`).
- Floating point: the listener stores the duration as float seconds and
  prints positions and durations as floating-point seconds; the service
  exports them as doubles in seconds through its D-Bus properties and its
  signal (`dbus_service.cpp:66-70`). The model keeps the duration in integer
  microseconds.
- The clock and the timers (`steady_clock`, `g_timeout_add*`, `nanosleep`).
  The clock becomes the integer `now` parameter, and the timers become the
  caller's choice of when to call `Resync` and `Tick`.
- Integer widths: 64-bit positions and timestamps and the `int` index are
  unbounded integers. Overflow would need lyric lists beyond 2^31 lines,
  about 292 years of elapsed time (the clock difference is taken in
  nanoseconds before its conversion to microseconds), or a player that reports a position
  near the int64 maximum, so that anchor plus elapsed time
  (`dbus_service.cpp:160`, `mpris_listener.cpp:209`) leaves the int64 range.
- Characters: lines are sequences of characters with no encoding. Only
  ASCII characters (digits, brackets, ':', '.', blanks, CR, LF) are ever
  inspected.
- `Lrc.ParseLrc`: claims nothing about the order of lines with equal
  timestamps, because `std::sort` does not fix it.
- The rest of the repository: the GLib client and worker thread under
  `backend/src/`, the diagnostic programs, and the GNOME Shell extensions.
  These are I/O, concurrency and presentation.
