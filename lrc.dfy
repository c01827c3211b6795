/** The LRC parser `parse_lrc`, identical in backend/my_backend/dbus_service.cpp
    and backend/my_backend/mpris_listener.cpp.

    The blob is split into lines the way `std::getline` splits a stream; each
    line is matched in full against `\[(\d{2}):(\d{2})\.(\d{2,3})\](.*)` (under
    the ECMAScript grammar of `std::regex`, where `.` matches neither '\r' nor
    '\n'); a match becomes a (timestamp, trimmed content) pair unless the
    content trims to nothing; the collected pairs are sorted in place by
    timestamp with an unstable sort. */
module Lrc {
  import opened Options

  /** One timed lyric line: microseconds from the start of the track, and its text. */
  datatype LyricLine = LyricLine(timestampUs: int, text: string)

  /** What the pattern captures of a matching line: the timestamp it computes
      and the raw content after the closing bracket. */
  datatype Tag = Tag(timestampUs: int, content: string)

  /** The largest timestamp a tag can carry: 99 minutes, 99 seconds and 999 ms. */
  const MaxTimestampUs: int := 6_039_999_000

  // ---------------------------------------------------------------------
  // Splitting into lines (std::getline on a stringstream)
  // ---------------------------------------------------------------------

  /** The index of the first '\n' at or after `from`, or |s| if there is none. */
  function LineEnd(s: string, from: nat): (e: nat)
    requires from <= |s|
    ensures from <= e <= |s|
    ensures forall k :: from <= k < e ==> s[k] != '\n'
    ensures e < |s| ==> s[e] == '\n'
    decreases |s| - from
  {
    if from == |s| || s[from] == '\n' then from else LineEnd(s, from + 1)
  }

  /** Where the next line starts: just past the newline, or at the end. */
  function NextStart(s: string, from: nat): (n: nat)
    requires from < |s|
    ensures from < n <= |s|
  {
    var e := LineEnd(s, from);
    if e == |s| then |s| else e + 1
  }

  /** The lines `getline` extracts from `s` starting at `from`: each newline
      ends a line and is dropped; a final newline does not start an empty
      line, and nothing is extracted from an exhausted stream. */
  function LinesFrom(s: string, from: nat): (ls: seq<string>)
    requires from <= |s|
    ensures forall i :: 0 <= i < |ls| ==> '\n' !in ls[i]
    decreases |s| - from
  {
    if from == |s| then []
    else [s[from..LineEnd(s, from)]] + LinesFrom(s, NextStart(s, from))
  }

  function Lines(s: string): seq<string>
  {
    LinesFrom(s, 0)
  }

  /** The lines put back together with a newline between each two. */
  function Join(ls: seq<string>): string
  {
    if |ls| == 0 then ""
    else if |ls| == 1 then ls[0]
    else ls[0] + "\n" + Join(ls[1..])
  }

  /** Joining one more line in front, followed by whatever comes after. */
  lemma JoinCons(line: string, rest: seq<string>, after: string, joined: string)
    requires rest != [] && Join(rest) + after == joined
    ensures Join([line] + rest) + after == line + "\n" + joined
  {
    assert ([line] + rest)[1..] == rest;
    assert line + "\n" + Join(rest) + after == line + "\n" + (Join(rest) + after);
  }

  lemma SliceAt(s: string, from: nat, e: nat)
    requires from <= e < |s|
    ensures s[from..] == s[from..e] + [s[e]] + s[e + 1..]
  {
  }

  /** Splitting loses nothing but a final newline: joining the lines gives
      the blob back, with its final newline, if it had one, added again. */
  lemma {:induction false} LinesFromJoin(s: string, from: nat)
    requires from <= |s|
    ensures Join(LinesFrom(s, from)) + (if from < |s| && s[|s| - 1] == '\n' then "\n" else "") == s[from..]
    decreases |s| - from
  {
    if from < |s| {
      var e, next := LineEnd(s, from), NextStart(s, from);
      var line, rest := s[from..e], LinesFrom(s, next);
      assert LinesFrom(s, from) == [line] + rest;
      LinesFromJoin(s, next);
      if e == |s| {
        assert rest == [] && s[from..] == line;
      } else {
        SliceAt(s, from, e);
        assert [s[e]] == "\n" && next == e + 1;
        if next == |s| {
          assert rest == [];
        } else {
          JoinCons(line, rest, if s[|s| - 1] == '\n' then "\n" else "", s[next..]);
        }
      }
    }
  }

  lemma LinesJoin(s: string)
    ensures Join(Lines(s)) + (if s != [] && s[|s| - 1] == '\n' then "\n" else "") == s
  {
    LinesFromJoin(s, 0);
  }

  // ---------------------------------------------------------------------
  // Matching one line against the timestamp pattern
  // ---------------------------------------------------------------------

  /** `\d` in the classic locale. */
  predicate IsDigit(c: char)
  {
    '0' <= c <= '9'
  }

  predicate AllDigits(s: string)
  {
    forall i :: 0 <= i < |s| ==> IsDigit(s[i])
  }

  /** What `.` matches: anything but a line terminator. */
  predicate NoLineBreak(s: string)
  {
    forall i :: 0 <= i < |s| ==> s[i] != '\r' && s[i] != '\n'
  }

  function Pow10(n: nat): (p: nat)
    ensures p >= 1
  {
    if n == 0 then 1 else 10 * Pow10(n - 1)
  }

  /** The value `std::stoll` reads from a string of decimal digits. */
  function DigitsValue(s: string): (v: nat)
    requires AllDigits(s)
    ensures v < Pow10(|s|)
  {
    if s == [] then 0
    else DigitsValue(s[..|s| - 1]) * 10 + (s[|s| - 1] as int - '0' as int)
  }

  /** The timestamp formula: a two-digit fraction counts centiseconds and is
      scaled by ten, a three-digit fraction counts milliseconds. */
  function Timestamp(mm: string, ss: string, ff: string): (t: int)
    requires |mm| == 2 && |ss| == 2 && (|ff| == 2 || |ff| == 3)
    requires AllDigits(mm) && AllDigits(ss) && AllDigits(ff)
    ensures 0 <= t <= MaxTimestampUs
  {
    var millis := if |ff| == 2 then DigitsValue(ff) * 10 else DigitsValue(ff);
    (DigitsValue(mm) * 60 + DigitsValue(ss)) * 1_000_000 + millis * 1000
  }

  /** The head of a tagged line up to the fraction: `[`, two digits, `:`,
      two digits, `.`, two digits. */
  predicate HasTagHead(line: string)
  {
    |line| >= 10 && line[0] == '[' && IsDigit(line[1]) && IsDigit(line[2]) && line[3] == ':'
    && IsDigit(line[4]) && IsDigit(line[5]) && line[6] == '.' && IsDigit(line[7]) && IsDigit(line[8])
  }

  /** `std::regex_match` of the whole line against the pattern. The third
      group takes two or three digits; exactly one choice can be followed by
      the closing bracket. */
  function MatchLrc(line: string): (r: Option<Tag>)
    ensures r.Some? ==> HasTagHead(line)
    ensures r.Some? ==> 0 <= r.value.timestampUs <= MaxTimestampUs
    ensures r.Some? ==> |line| - |r.value.content| in {10, 11}
    ensures r.Some? ==> NoLineBreak(r.value.content) && r.value.content == line[|line| - |r.value.content|..]
  {
    if !HasTagHead(line) then None
    else if line[9] == ']' then
      if NoLineBreak(line[10..]) then Some(Tag(Timestamp(line[1..3], line[4..6], line[7..9]), line[10..])) else None
    else if |line| >= 11 && IsDigit(line[9]) && line[10] == ']' then
      if NoLineBreak(line[11..]) then Some(Tag(Timestamp(line[1..3], line[4..6], line[7..10]), line[11..])) else None
    else None
  }

  /** A line of the pattern's shape, with its fields written out. */
  function Render(mm: string, ss: string, ff: string, content: string): string
  {
    "[" + mm + ":" + ss + "." + ff + "]" + content
  }

  /** Every line of the pattern's shape is recognised, with the timestamp
      of the formula and the content verbatim. */
  lemma RenderedLineMatches(mm: string, ss: string, ff: string, content: string)
    requires |mm| == 2 && |ss| == 2 && (|ff| == 2 || |ff| == 3)
    requires AllDigits(mm) && AllDigits(ss) && AllDigits(ff)
    requires NoLineBreak(content)
    ensures MatchLrc(Render(mm, ss, ff, content)) == Some(Tag(Timestamp(mm, ss, ff), content))
  {
    var line := Render(mm, ss, ff, content);
    var n := 7 + |ff|;
    assert line[1..3] == mm && line[4..6] == ss && line[7..n] == ff;
    assert line[n] == ']' && line[n + 1..] == content;
  }

  /** Conversely, every recognised line is a line of the pattern's shape. */
  lemma MatchedLineIsRendered(line: string)
    requires MatchLrc(line).Some?
    ensures var t := MatchLrc(line).value;
            var n := |line| - |t.content| - 1;
            AllDigits(line[7..n]) && line == Render(line[1..3], line[4..6], line[7..n], t.content)
            && t.timestampUs == Timestamp(line[1..3], line[4..6], line[7..n])
  {
    var t := MatchLrc(line).value;
    var n := |line| - |t.content| - 1;
    assert line == line[..1] + line[1..3] + line[3..4] + line[4..6] + line[6..7] + line[7..n] + line[n..n + 1] + t.content;
  }

  // ---------------------------------------------------------------------
  // Trimming (erase up to find_first_not_of, from find_last_not_of + 1)
  // ---------------------------------------------------------------------

  /** The characters of " \t\r\n". */
  predicate IsSpace(c: char)
  {
    c == ' ' || c == '\t' || c == '\r' || c == '\n'
  }

  predicate IsTrimmed(s: string)
  {
    s == [] || (!IsSpace(s[0]) && !IsSpace(s[|s| - 1]))
  }

  function TrimLeft(s: string): (r: string)
    ensures |r| <= |s| && r == s[|s| - |r|..]
    ensures forall i :: 0 <= i < |s| - |r| ==> IsSpace(s[i])
    ensures r == [] || !IsSpace(r[0])
  {
    if s != [] && IsSpace(s[0]) then
      var r := TrimLeft(s[1..]);
      assert s[1..][|s| - 1 - |r|..] == s[|s| - |r|..];
      assert forall i :: 1 <= i < |s| - |r| ==> s[i] == s[1..][i - 1];
      r
    else s
  }

  function TrimRight(s: string): (r: string)
    ensures |r| <= |s| && r == s[..|r|]
    ensures forall i :: |r| <= i < |s| ==> IsSpace(s[i])
    ensures r == [] || !IsSpace(r[|r| - 1])
  {
    if s != [] && IsSpace(s[|s| - 1]) then
      var r := TrimRight(s[..|s| - 1]);
      assert s[..|s| - 1][..|r|] == s[..|r|];
      r
    else s
  }

  /** Leading and trailing blanks removed; nothing is left exactly when the
      content was blank throughout. */
  function Trim(s: string): (r: string)
    ensures IsTrimmed(r)
    ensures r == [] <==> forall i :: 0 <= i < |s| ==> IsSpace(s[i])
  {
    var l := TrimLeft(s);
    var r := TrimRight(l);
    assert r != [] ==> r[0] == l[0];
    assert l != [] ==> r != [];
    r
  }

  /** The trimmed text is a contiguous piece of the content. */
  lemma TrimIsPiece(s: string)
    ensures exists k :: 0 <= k <= |s| - |Trim(s)| && Trim(s) == s[k..][..|Trim(s)|]
  {
    var k := |s| - |TrimLeft(s)|;
    assert Trim(s) == s[k..][..|Trim(s)|];
  }

  // ---------------------------------------------------------------------
  // What each line contributes
  // ---------------------------------------------------------------------

  /** The entry one line contributes: none when the line does not match or
      its content trims to nothing. */
  function LineEntry(line: string): (o: Option<LyricLine>)
    ensures o.Some? ==> MatchLrc(line).Some? && GoodLine(o.value)
  {
    match MatchLrc(line)
    case None => None
    case Some(tag) =>
      var text := Trim(tag.content);
      if text == [] then None else Some(LyricLine(tag.timestampUs, text))
  }

  /** A line yields an entry exactly when it matches and its content has a
      non-blank character; the entry carries the match's timestamp and the
      trimmed content. */
  lemma LineEntryCharacterised(line: string)
    ensures LineEntry(line).Some? <==>
              MatchLrc(line).Some? && exists i :: 0 <= i < |MatchLrc(line).value.content| && !IsSpace(MatchLrc(line).value.content[i])
    ensures LineEntry(line).Some? ==>
              LineEntry(line).value == LyricLine(MatchLrc(line).value.timestampUs, Trim(MatchLrc(line).value.content))
  {
  }

  /** What one line contributes to the parse: its entry, or nothing. */
  function Kept(line: string): seq<LyricLine>
  {
    match LineEntry(line)
    case None => []
    case Some(x) => [x]
  }

  /** The pieces `keep` gives each line, concatenated in the order of the
      lines. */
  function Gather(ls: seq<string>, keep: string -> seq<LyricLine>): seq<LyricLine>
  {
    if ls == [] then [] else keep(ls[0]) + Gather(ls[1..], keep)
  }

  /** The entries of the lines, in the order of the lines (what is pushed
      back before sorting). */
  function Entries(ls: seq<string>): seq<LyricLine>
  {
    Gather(ls, Kept)
  }

  /** A lyric line as the parser emits it: non-empty trimmed text and a
      timestamp inside the range the pattern allows. */
  predicate GoodLine(l: LyricLine)
  {
    l.text != [] && IsTrimmed(l.text) && 0 <= l.timestampUs <= MaxTimestampUs
  }

  predicate SortedByTime(s: seq<LyricLine>)
  {
    forall i, j :: 0 <= i < j < |s| ==> s[i].timestampUs <= s[j].timestampUs
  }

  /** The invariant every lyric sequence the engines hold satisfies. */
  predicate WellFormed(s: seq<LyricLine>)
  {
    SortedByTime(s) && forall i :: 0 <= i < |s| ==> GoodLine(s[i])
  }

  /** `lyrics` is a possible result of `parse_lrc(text)`: the entries of its
      lines, sorted by timestamp in some order among equal timestamps. */
  predicate IsParseOf(lyrics: seq<LyricLine>, text: string)
  {
    SortedByTime(lyrics) && multiset(lyrics) == multiset(Entries(Lines(text)))
  }

  /** A value is gathered exactly when some line's piece holds it. */
  lemma {:induction false} GatherMember(ls: seq<string>, keep: string -> seq<LyricLine>, x: LyricLine)
    ensures x in Gather(ls, keep) <==> exists i :: 0 <= i < |ls| && x in keep(ls[i])
  {
    if ls != [] {
      var tail := ls[1..];
      GatherMember(tail, keep, x);
      if x in Gather(tail, keep) {
        var j :| 0 <= j < |tail| && x in keep(tail[j]);
        assert tail[j] == ls[j + 1];
      }
      if i :| 0 < i < |ls| && x in keep(ls[i]) {
        assert ls[i] == tail[i - 1];
      }
    }
  }

  /** Entries of a line followed by more lines. */
  lemma EntriesCons(line: string, rest: seq<string>)
    ensures Entries([line] + rest) == Kept(line) + Entries(rest)
  {
    var ls := [line] + rest;
    assert ls[0] == line && ls[1..] == rest;
  }

  /** A line's entry is kept exactly when the line has one. */
  lemma KeptMember(line: string, x: LyricLine)
    ensures x in Kept(line) <==> LineEntry(line) == Some(x)
  {
  }

  /** An entry is present exactly when some line keeps it. */
  lemma {:induction false} EntriesMember(ls: seq<string>, x: LyricLine)
    ensures x in Entries(ls) <==> exists i :: 0 <= i < |ls| && x in Kept(ls[i])
  {
    GatherMember(ls, Kept, x);
  }

  /** Every entry is a good line. */
  lemma EntriesAreGood(ls: seq<string>)
    ensures forall x :: x in Entries(ls) ==> GoodLine(x)
  {
    forall x | x in Entries(ls)
      ensures GoodLine(x)
    {
      EntriesMember(ls, x);
      var i :| 0 <= i < |ls| && x in Kept(ls[i]);
      KeptMember(ls[i], x);
    }
  }

  // ---------------------------------------------------------------------
  // The parser itself
  // ---------------------------------------------------------------------

  /** Exchanges two adjacent elements. */
  method SwapAdjacent(a: array<LyricLine>, j: nat)
    requires 0 < j < a.Length
    modifies a
    ensures a[j - 1] == old(a[j]) && a[j] == old(a[j - 1])
    ensures forall k :: 0 <= k < a.Length && k != j - 1 && k != j ==> a[k] == old(a[k])
    ensures multiset(a[..]) == multiset(old(a[..]))
  {
    a[j - 1], a[j] := a[j], a[j - 1];
  }

  /** `std::sort` by timestamp, in place (here an insertion sort; only what
      `std::sort` promises is claimed: sorted, and a permutation). */
  method SortByTimestamp(a: array<LyricLine>)
    modifies a
    ensures SortedByTime(a[..])
    ensures multiset(a[..]) == multiset(old(a[..]))
  {
    var i := 0;
    while i < a.Length
      invariant 0 <= i <= a.Length
      invariant forall p, q :: 0 <= p < q < i ==> a[p].timestampUs <= a[q].timestampUs
      invariant multiset(a[..]) == multiset(old(a[..]))
    {
      var j := i;
      while j > 0 && a[j - 1].timestampUs > a[j].timestampUs
        invariant 0 <= j <= i
        invariant forall p, q :: 0 <= p < q <= i && p != j && q != j ==> a[p].timestampUs <= a[q].timestampUs
        invariant forall q :: j < q <= i ==> a[j].timestampUs < a[q].timestampUs
        invariant multiset(a[..]) == multiset(old(a[..]))
      {
        SwapAdjacent(a, j);
        j := j - 1;
      }
      i := i + 1;
    }
  }

  lemma CollectStep(found: seq<LyricLine>, text: string, pos: nat, all: seq<LyricLine>)
    requires pos < |text|
    requires found + Entries(LinesFrom(text, pos)) == all
    ensures var entry := LineEntry(text[pos..LineEnd(text, pos)]);
            (if entry.Some? then found + [entry.value] else found) + Entries(LinesFrom(text, NextStart(text, pos))) == all
  {
    var line, rest := text[pos..LineEnd(text, pos)], LinesFrom(text, NextStart(text, pos));
    assert LinesFrom(text, pos) == [line] + rest;
    EntriesCons(line, rest);
    assert found + Kept(line) + Entries(rest) == all;
    match LineEntry(line)
    case None =>
      assert Kept(line) == [];
      assert found + Kept(line) == found;
    case Some(x) =>
      assert Kept(line) == [x];
  }

  /** The `getline` loop of `parse_lrc`: each line that matches with
      non-blank content is pushed back, in the order of the lines. */
  method CollectEntries(text: string) returns (found: seq<LyricLine>)
    ensures found == Entries(Lines(text))
  {
    ghost var all := Entries(Lines(text));
    found := [];
    var pos := 0;
    while pos < |text|
      invariant 0 <= pos <= |text|
      invariant found + Entries(LinesFrom(text, pos)) == all
      decreases |text| - pos
    {
      var line := text[pos..LineEnd(text, pos)];
      CollectStep(found, text, pos, all);
      var entry := LineEntry(line);
      if entry.Some? {
        found := found + [entry.value];
      }
      pos := NextStart(text, pos);
    }
  }

  /** `parse_lrc`: collect the entries, then sort them in place. */
  method ParseLrc(text: string) returns (lyrics: seq<LyricLine>)
    ensures IsParseOf(lyrics, text)
    ensures WellFormed(lyrics)
  {
    var found := CollectEntries(text);
    var a := new LyricLine[|found|](i requires 0 <= i < |found| => found[i]);
    assert a[..] == found;
    SortByTimestamp(a);
    lyrics := a[..];
    EntriesAreGood(Lines(text));
    forall i | 0 <= i < |lyrics|
      ensures GoodLine(lyrics[i])
    {
      assert lyrics[i] in multiset(found);
    }
  }

  // ---------------------------------------------------------------------
  // Examples
  // ---------------------------------------------------------------------

  lemma SmallDigitValues()
    ensures DigitsValue("00") == 0 && DigitsValue("01") == 1
    ensures DigitsValue("50") == 50 && DigitsValue("500") == 500
  {
    assert "50"[..1] == "5";
    assert "500"[..2] == "50";
    assert "00"[..1] == "0";
    assert "01"[..1] == "0";
  }

  /** A two-digit and a three-digit fraction name the same instant. */
  lemma FractionExamples()
    ensures MatchLrc("[00:01.50]x") == Some(Tag(1_500_000, "x"))
    ensures MatchLrc("[00:01.500]x") == Some(Tag(1_500_000, "x"))
  {
    SmallDigitValues();
    assert Timestamp("00", "01", "50") == 1_500_000;
    assert Timestamp("00", "01", "500") == 1_500_000;
    RenderedLineMatches("00", "01", "50", "x");
    assert Render("00", "01", "50", "x") == "[00:01.50]x";
    RenderedLineMatches("00", "01", "500", "x");
    assert Render("00", "01", "500", "x") == "[00:01.500]x";
  }

  /** A tag with only blanks after it contributes nothing; a line ending in
      a carriage return, or with a one-digit fraction, does not match at all. */
  lemma DroppedLineExamples()
    ensures LineEntry("[00:01.00]   ") == None
    ensures MatchLrc("[00:01.00]a\r") == None
    ensures MatchLrc("[00:01.5]x") == None
  {
    assert "[00:01.00]   "[10..] == "   ";
    assert "[00:01.00]a\r"[10..][1] == '\r';
  }
}
