/** The engine of backend/my_backend/mpris_listener.cpp: like the service's,
    but its snapshot also carries a `position_us` (reset by every handled
    signal, set by a successful resync), it keeps the index of the active
    lyric line instead of its text, leaves that index alone while there are
    no lyrics, and resyncs only on a new track. The terminal output guards
    its read of the active line against a stale index. */
module MprisListener {
  import opened Options
  import opened Lrc
  import opened Mpris
  import opened Prediction

  /** `music_t` of this variant; the duration is kept in microseconds. */
  datatype Music = Music(trackId: string, artist: string, title: string, durationUs: int,
                         positionUs: int, isPlaying: bool)

  const EmptyMusic := Music("", "", "", 0, 0, false)

  /** The handler's fresh snapshot: as in the service, except that the
      position is never carried over from the current snapshot. */
  function Merge(current: Music, c: Changes): (m: Music)
    requires c.metadata.Some? ==> WellTyped(c.metadata.value)
    ensures m.positionUs == 0
    ensures c.playbackStatus.None? ==> m.isPlaying == current.isPlaying
    ensures c.metadata.None? ==> m == current.(positionUs := 0, isPlaying := m.isPlaying)
    ensures c.metadata.Some? ==> var d := Decode(c.metadata.value);
              m.trackId == d.trackId && m.artist == d.artist && m.title == d.title && m.durationUs == d.lengthUs
  {
    var playing := match c.playbackStatus case Some(status) => status == Playing case None => current.isPlaying;
    match c.metadata
    case None => Music(current.trackId, current.artist, current.title, current.durationUs, 0, playing)
    case Some(entries) =>
      var d := Decode(entries);
      Music(d.trackId, d.artist, d.title, d.lengthUs, 0, playing)
  }

  predicate IsNewTrack(current: Music, merged: Music): (b: bool)
    ensures b ==> merged != current && merged.trackId != EmptyMusic.trackId
  {
    merged.trackId != "" && merged.trackId != current.trackId
  }

  /** Status and metadata are inherited when absent; a dictionary resets
      the keys it lacks; the position always starts from zero. */
  lemma MergeRules(current: Music, c: Changes)
    requires c.metadata.Some? ==> WellTyped(c.metadata.value)
    ensures var m := Merge(current, c);
            m.positionUs == 0
            && (c.playbackStatus.None? ==> m.isPlaying == current.isPlaying)
            && (c.playbackStatus.Some? ==> (m.isPlaying <==> c.playbackStatus.value == Playing))
            && (c.metadata.None? ==>
                  m.trackId == current.trackId && m.artist == current.artist && m.title == current.title
                  && m.durationUs == current.durationUs && !IsNewTrack(current, m))
    ensures c.metadata.Some? ==>
              var m, es := Merge(current, c), c.metadata.value;
              ((forall i :: 0 <= i < |es| ==> es[i].key != TrackIdKey) ==> m.trackId == "")
              && ((forall i :: 0 <= i < |es| ==> es[i].key != TitleKey) ==> m.title == "")
              && ((forall i :: 0 <= i < |es| ==> es[i].key != ArtistKey) ==> m.artist == "")
              && ((forall i :: 0 <= i < |es| ==> es[i].key != LengthKey) ==> m.durationUs == 0)
  {
    if c.metadata.Some? {
      AbsentKeysReset(c.metadata.value);
    }
  }

  /** The guard of `display_full_info`: the active line is read only for an
      index that is not -1 and lies inside the current lyrics (the index is
      compared as an unsigned size, so a negative one never passes). */
  function Shown(lyrics: seq<LyricLine>, index: int): (r: Option<string>)
    ensures r.Some? <==> 0 <= index < |lyrics|
    ensures r.Some? ==> r.value == lyrics[index].text
  {
    if index != -1 && index < |lyrics| && index >= 0 then Some(lyrics[index].text) else None
  }

  class Engine {
    var music: Music
    var lyrics: seq<LyricLine>
    var currentLyricIndex: int
    var syncTime: int
    var syncPositionUs: int

    /** The lyrics only come from the parser, and the index is -1 or a line
        index of some earlier lyrics (it may exceed the current ones). */
    ghost predicate Valid()
      reads this
    {
      WellFormed(lyrics) && currentLyricIndex >= -1
    }

    constructor ()
      ensures Valid()
      ensures music == EmptyMusic && lyrics == [] && currentLyricIndex == -1
      ensures syncTime == 0 && syncPositionUs == 0
    {
      music := EmptyMusic;
      lyrics := [];
      currentLyricIndex := -1;
      syncTime := 0;
      syncPositionUs := 0;
    }

    /** `sync_position_from_dbus`: a successful read sets the snapshot's
        position and the anchor together; a failed one changes none of them. */
    method Resync(read: Option<int>, now: int)
      requires now >= syncTime
      modifies this`music, this`syncPositionUs, this`syncTime
      ensures read.Some? ==>
                music == old(music).(positionUs := read.value) && syncPositionUs == read.value && syncTime == now
      ensures read.None? ==>
                music == old(music) && syncPositionUs == old(syncPositionUs) && syncTime == old(syncTime)
    {
      if read.Some? {
        music := music.(positionUs := read.value);
        syncPositionUs := music.positionUs;
        syncTime := now;
      }
    }

    /** `on_any_signal`: replace snapshot and lyrics wholesale; only a new
        track resets the index to -1 and resyncs. */
    method ApplyChange(sig: Signal, read: Option<int>, now: int)
      requires Valid() && now >= syncTime
      requires SignalWellTyped(sig)
      modifies this
      ensures Valid()
      ensures !Handled(sig) ==>
                music == old(music) && lyrics == old(lyrics) && currentLyricIndex == old(currentLyricIndex)
                && syncPositionUs == old(syncPositionUs) && syncTime == old(syncTime)
      ensures Handled(sig) && sig.params.value.metadata.None? ==> lyrics == old(lyrics)
      ensures Handled(sig) && sig.params.value.metadata.Some? ==>
                LyricsFor(lyrics, Decode(sig.params.value.metadata.value).lyricText)
      ensures Handled(sig) ==>
                var merged := Merge(old(music), sig.params.value);
                if IsNewTrack(old(music), merged) then
                  currentLyricIndex == -1
                  && (read.Some? ==> music == merged.(positionUs := read.value)
                                     && syncPositionUs == read.value && syncTime == now)
                  && (read.None? ==> music == merged
                                     && syncPositionUs == old(syncPositionUs) && syncTime == old(syncTime))
                else
                  music == merged && currentLyricIndex == old(currentLyricIndex)
                  && syncPositionUs == old(syncPositionUs) && syncTime == old(syncTime)
    {
      if sig.name != PropertiesChanged || sig.params.None? {
        return;
      }
      var c := sig.params.value;
      var playing := match c.playbackStatus case Some(status) => status == Playing case None => music.isPlaying;
      var merged: Music;
      var newLyrics: seq<LyricLine>;
      match c.metadata {
        case Some(entries) =>
          var trackId, title, artist, lengthUs, parsed := ScanMetadata(entries);
          merged := Music(trackId, artist, title, lengthUs, 0, playing);
          newLyrics := parsed;
        case None =>
          merged := Music(music.trackId, music.artist, music.title, music.durationUs, 0, playing);
          newLyrics := lyrics;
      }
      var isNewTrack := merged.trackId != "" && merged.trackId != music.trackId;
      music := merged;
      lyrics := newLyrics;
      if isNewTrack {
        currentLyricIndex := -1;
        Resync(read, now);
      }
    }

    /** The guard in `display_full_info`; the signed index is compared with
        the unsigned size only after -1 is ruled out, which the invariant
        makes sound. */
    method DisplayedLyric() returns (shown: Option<string>)
      requires Valid()
      ensures shown.Some? <==> 0 <= currentLyricIndex < |lyrics|
      ensures shown.Some? ==> shown.value == lyrics[currentLyricIndex].text
    {
      if currentLyricIndex != -1 && currentLyricIndex < |lyrics| {
        shown := Some(lyrics[currentLyricIndex].text);
      } else {
        shown := None;
      }
    }

    /** `predictive_update_and_display`: predict from the anchor alone (not
        from the snapshot's position), re-resolve the index when there are
        lyrics, leave it alone when there are none, and display. */
    method Tick(now: int) returns (displayPositionUs: int, shown: Option<string>)
      requires Valid() && now >= syncTime
      modifies this`currentLyricIndex
      ensures Valid()
      ensures displayPositionUs == Predict(syncPositionUs, syncTime, music.isPlaying, now)
      ensures lyrics != [] ==> currentLyricIndex == ActiveIndex(lyrics, displayPositionUs)
      ensures lyrics == [] ==> currentLyricIndex == old(currentLyricIndex)
      ensures shown == Shown(lyrics, currentLyricIndex)
      ensures lyrics != [] ==> shown == (if currentLyricIndex == -1 then None else Some(ActiveText(lyrics, displayPositionUs)))
    {
      var predicted := syncPositionUs;
      if music.isPlaying {
        var elapsed := now - syncTime;
        predicted := predicted + elapsed;
      }
      if |lyrics| > 0 {
        var newIndex := ResolveIndex(lyrics, predicted);
        if newIndex != currentLyricIndex {
          currentLyricIndex := newIndex;
        }
      }
      displayPositionUs := predicted;
      shown := DisplayedLyric();
    }
  }
}
