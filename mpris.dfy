/** The decoded `PropertiesChanged` payload both handlers receive, and the
    scan over its `Metadata` dictionary that fills a fresh track record
    (the `while (g_variant_iter_next ...)` loop of `on_any_signal`).

    The keys are those of the Metadata section of the MPRIS D-Bus Interface
    Specification v2.2: `mpris:trackid`, `xesam:title`, `xesam:artist`,
    `mpris:length` and `xesam:asText`. */
module Mpris {
  import opened Options
  import opened Lrc

  /** A metadata value after D-Bus decoding: a string (types `s` and `o`),
      an array of strings (`as`), a 64-bit integer (`x`), or anything else. */
  datatype Variant = Str(s: string) | StrArray(items: seq<string>) | Int64(v: int) | OtherValue

  datatype MetaEntry = MetaEntry(key: string, value: Variant)

  /** The `a{sv}` of changed properties, after `g_variant_lookup_value` with
      the expected types: `PlaybackStatus` as a string and `Metadata` as a
      dictionary, each absent when missing or of another type. */
  datatype Changes = Changes(playbackStatus: Option<string>, metadata: Option<seq<MetaEntry>>)

  /** A signal delivered to the handler: its member name and its parameters. */
  datatype Signal = Signal(name: string, params: Option<Changes>)

  const PropertiesChanged: string := "PropertiesChanged"
  const Playing: string := "Playing"
  const TrackIdKey: string := "mpris:trackid"
  const TitleKey: string := "xesam:title"
  const ArtistKey: string := "xesam:artist"
  const LengthKey: string := "mpris:length"
  const AsTextKey: string := "xesam:asText"

  /** The parameters the handler goes on to process; any other signal, or
      one without parameters, is returned from at once. */
  predicate Handled(sig: Signal)
  {
    sig.name == PropertiesChanged && sig.params.Some?
  }

  /** The track fields the scan fills. */
  datatype Field = TrackId | Title | Artist | Length | AsText

  /** Whether the scan takes entry `e` for field `f`: the artist only from a
      non-empty string array, the lyric text only when it reads as a string
      (otherwise `g_variant_get_string` yields NULL and the `if (lrc)` skips it). */
  predicate Takes(f: Field, e: MetaEntry)
  {
    match f
    case TrackId => e.key == TrackIdKey
    case Title => e.key == TitleKey
    case Artist => e.key == ArtistKey && e.value.StrArray? && |e.value.items| > 0
    case Length => e.key == LengthKey
    case AsText => e.key == AsTextKey && e.value.Str?
  }

  /** The track id and the title are read with `g_variant_get_string`
      straight into a `std::string`, which is only defined for string values. */
  predicate WellTyped(entries: seq<MetaEntry>)
  {
    forall i :: 0 <= i < |entries| && entries[i].key in {TrackIdKey, TitleKey} ==> entries[i].value.Str?
  }

  predicate SignalWellTyped(sig: Signal)
  {
    Handled(sig) && sig.params.value.metadata.Some? ==> WellTyped(sig.params.value.metadata.value)
  }

  /** The index of the entry whose value ends up in field `f`: the last one
      the scan takes for it (later entries overwrite earlier ones), or -1. */
  function LastTaken(entries: seq<MetaEntry>, f: Field): (k: int)
    ensures -1 <= k < |entries|
    ensures k >= 0 ==> Takes(f, entries[k])
    ensures forall j :: k < j < |entries| ==> !Takes(f, entries[j])
  {
    if entries == [] then -1
    else if Takes(f, entries[|entries| - 1]) then |entries| - 1
    else LastTaken(entries[..|entries| - 1], f)
  }

  /** What the scan leaves in the fresh record: every field starts empty
      (`music_t temp_music = {}`) and holds the value of the last entry taken
      for it. `lyricText` is the blob handed to the parser, if any. */
  datatype Decoded = Decoded(trackId: string, title: string, artist: string, lengthUs: int, lyricText: Option<string>)

  /** Entry `i` is taken for `f`, and no later entry is. */
  predicate LastFor(entries: seq<MetaEntry>, f: Field, i: int)
  {
    0 <= i < |entries| && Takes(f, entries[i]) && forall j :: i < j < |entries| ==> !Takes(f, entries[j])
  }

  /** `LastTaken` finds the entry that is last for its field. */
  lemma LastTakenExact(entries: seq<MetaEntry>, f: Field)
    ensures forall i :: LastFor(entries, f, i) ==> LastTaken(entries, f) == i
  {
  }

  /** Each field holds the value of the last entry taken for it (the
      fields no entry is taken for are empty: `AbsentKeysReset`). */
  function Decode(entries: seq<MetaEntry>): (d: Decoded)
    requires WellTyped(entries)
    ensures forall i :: LastFor(entries, TrackId, i) ==> d.trackId == entries[i].value.s
    ensures forall i :: LastFor(entries, Title, i) ==> d.title == entries[i].value.s
    ensures forall i :: LastFor(entries, Artist, i) ==> d.artist == entries[i].value.items[0]
    ensures forall i :: LastFor(entries, Length, i) ==> d.lengthUs == (match entries[i].value case Int64(v) => v case _ => 0)
    ensures forall i :: LastFor(entries, AsText, i) ==> d.lyricText == Some(entries[i].value.s)
  {
    LastTakenExact(entries, TrackId);
    LastTakenExact(entries, Title);
    LastTakenExact(entries, Artist);
    LastTakenExact(entries, Length);
    LastTakenExact(entries, AsText);
    var t := LastTaken(entries, TrackId);
    var n := LastTaken(entries, Title);
    var a := LastTaken(entries, Artist);
    var l := LastTaken(entries, Length);
    var x := LastTaken(entries, AsText);
    Decoded(
      if t < 0 then "" else entries[t].value.s,
      if n < 0 then "" else entries[n].value.s,
      if a < 0 then "" else entries[a].value.items[0],
      // g_variant_get_int64 on a value of another type fails its check and yields 0
      if l < 0 then 0 else (match entries[l].value case Int64(v) => v case _ => 0),
      if x < 0 then None else Some(entries[x].value.s))
  }

  /** A key the dictionary lacks leaves its field empty, and so does an
      artist or lyric entry that is present but never taken: an artist that
      is not a non-empty string array, a lyric text that is not a string. */
  lemma AbsentKeysReset(entries: seq<MetaEntry>)
    requires WellTyped(entries)
    ensures (forall i :: 0 <= i < |entries| ==> !Takes(Artist, entries[i])) ==> Decode(entries).artist == ""
    ensures (forall i :: 0 <= i < |entries| ==> !Takes(AsText, entries[i])) ==> Decode(entries).lyricText == None
    ensures (forall i :: 0 <= i < |entries| ==> entries[i].key != TrackIdKey) ==> Decode(entries).trackId == ""
    ensures (forall i :: 0 <= i < |entries| ==> entries[i].key != TitleKey) ==> Decode(entries).title == ""
    ensures (forall i :: 0 <= i < |entries| ==> entries[i].key != ArtistKey) ==> Decode(entries).artist == ""
    ensures (forall i :: 0 <= i < |entries| ==> entries[i].key != LengthKey) ==> Decode(entries).lengthUs == 0
    ensures (forall i :: 0 <= i < |entries| ==> entries[i].key != AsTextKey) ==> Decode(entries).lyricText == None
  {
  }

  /** A non-empty artist is the first name of some non-empty string array
      under the artist key. */
  lemma ArtistFromStringArray(entries: seq<MetaEntry>)
    requires WellTyped(entries)
    ensures Decode(entries).artist != "" ==>
              exists i :: 0 <= i < |entries| && entries[i].key == ArtistKey && entries[i].value.StrArray?
                          && |entries[i].value.items| > 0 && entries[i].value.items[0] == Decode(entries).artist
  {
    var a := LastTaken(entries, Artist);
    if a >= 0 {
      assert entries[a].value.items[0] == Decode(entries).artist;
    }
  }

  /** The lyric sequence the scan may leave: empty without a lyric text,
      a parse of the last lyric text otherwise. */
  predicate LyricsFor(lyrics: seq<LyricLine>, text: Option<string>)
  {
    match text
    case None => lyrics == []
    case Some(t) => IsParseOf(lyrics, t)
  }

  lemma LastTakenStep(entries: seq<MetaEntry>, i: nat, f: Field)
    requires i < |entries|
    ensures LastTaken(entries[..i + 1], f) == if Takes(f, entries[i]) then i else LastTaken(entries[..i], f)
  {
    assert entries[..i + 1][..i] == entries[..i];
  }

  /** How one more entry changes the track fields the scan has decoded. */
  lemma DecodeStepTrack(entries: seq<MetaEntry>, i: nat)
    requires i < |entries| && WellTyped(entries)
    ensures WellTyped(entries[..i]) && WellTyped(entries[..i + 1])
    ensures var d, d' := Decode(entries[..i]), Decode(entries[..i + 1]);
            var e := entries[i];
            d'.trackId == (if Takes(TrackId, e) then e.value.s else d.trackId)
            && d'.title == (if Takes(Title, e) then e.value.s else d.title)
            && d'.artist == (if Takes(Artist, e) then e.value.items[0] else d.artist)
            && d'.lengthUs == (if Takes(Length, e) then (match e.value case Int64(v) => v case _ => 0) else d.lengthUs)
  {
    var before, after := entries[..i], entries[..i + 1];
    assert after[i] == entries[i] && after[..i] == before;
    assert WellTyped(before) && WellTyped(after);
    LastTakenStep(entries, i, TrackId);
    LastTakenStep(entries, i, Title);
    LastTakenStep(entries, i, Artist);
    LastTakenStep(entries, i, Length);
  }

  /** How one more entry changes the lyric text the scan has met. */
  lemma DecodeStepLyrics(entries: seq<MetaEntry>, i: nat)
    requires i < |entries| && WellTyped(entries)
    ensures WellTyped(entries[..i]) && WellTyped(entries[..i + 1])
    ensures Decode(entries[..i + 1]).lyricText
              == if Takes(AsText, entries[i]) then Some(entries[i].value.s) else Decode(entries[..i]).lyricText
  {
    var before, after := entries[..i], entries[..i + 1];
    assert after[i] == entries[i] && after[..i] == before;
    assert WellTyped(before) && WellTyped(after);
    LastTakenStep(entries, i, AsText);
  }

  /** One iteration of the metadata loop of `on_any_signal`: the entry
      overwrites the field its key names, and a lyric text is parsed. */
  method ScanEntry(e: MetaEntry, trackId: string, title: string, artist: string, lengthUs: int, lyrics: seq<LyricLine>)
    returns (trackId': string, title': string, artist': string, lengthUs': int, lyrics': seq<LyricLine>)
    requires e.key == TrackIdKey || e.key == TitleKey ==> e.value.Str?
    requires WellFormed(lyrics)
    ensures trackId' == (if Takes(TrackId, e) then e.value.s else trackId)
    ensures title' == (if Takes(Title, e) then e.value.s else title)
    ensures artist' == (if Takes(Artist, e) then e.value.items[0] else artist)
    ensures lengthUs' == (if Takes(Length, e) then (match e.value case Int64(v) => v case _ => 0) else lengthUs)
    ensures Takes(AsText, e) ==> IsParseOf(lyrics', e.value.s)
    ensures !Takes(AsText, e) ==> lyrics' == lyrics
    ensures WellFormed(lyrics')
  {
    trackId', title', artist', lengthUs', lyrics' := trackId, title, artist, lengthUs, lyrics;
    if e.key == TrackIdKey {
      trackId' := e.value.s;
    } else if e.key == TitleKey {
      title' := e.value.s;
    } else if e.key == ArtistKey && e.value.StrArray? && |e.value.items| > 0 {
      artist' := e.value.items[0];
    } else if e.key == LengthKey {
      lengthUs' := match e.value case Int64(v) => v case _ => 0;
    } else if e.key == AsTextKey {
      if e.value.Str? {
        lyrics' := ParseLrc(e.value.s);
      }
    }
  }

  /** The metadata loop of `on_any_signal`: walk the dictionary once, let
      each recognised key overwrite its field, and parse each lyric text met. */
  method ScanMetadata(entries: seq<MetaEntry>)
    returns (trackId: string, title: string, artist: string, lengthUs: int, lyrics: seq<LyricLine>)
    requires WellTyped(entries)
    ensures var d := Decode(entries);
            trackId == d.trackId && title == d.title && artist == d.artist && lengthUs == d.lengthUs
    ensures LyricsFor(lyrics, Decode(entries).lyricText)
    ensures WellFormed(lyrics)
  {
    trackId, title, artist, lengthUs, lyrics := "", "", "", 0, [];
    var i := 0;
    while i < |entries|
      invariant 0 <= i <= |entries| && WellTyped(entries[..i])
      invariant var d := Decode(entries[..i]);
                trackId == d.trackId && title == d.title && artist == d.artist && lengthUs == d.lengthUs
      invariant LyricsFor(lyrics, Decode(entries[..i]).lyricText)
      invariant WellFormed(lyrics)
    {
      DecodeStepTrack(entries, i);
      DecodeStepLyrics(entries, i);
      trackId, title, artist, lengthUs, lyrics := ScanEntry(entries[i], trackId, title, artist, lengthUs, lyrics);
      i := i + 1;
    }
    assert entries[..i] == entries;
  }
}
