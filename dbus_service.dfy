/** The engine of backend/my_backend/dbus_service.cpp: the track snapshot,
    the parsed lyrics, the lyric text currently exported, and the position
    anchor, updated by the `PropertiesChanged` handler, the position resync
    and the 10 Hz display tick. The D-Bus position read and the clock are
    parameters: `read` is the reply of the player's `Position` property
    (None when the call fails) and `now` a monotonic time in microseconds. */
module DbusService {
  import opened Options
  import opened Lrc
  import opened Mpris
  import opened Prediction

  /** `music_t`: the track snapshot. */
  datatype Music = Music(trackId: string, artist: string, title: string, durationUs: int, isPlaying: bool)

  /** `music_t temp_music = {}`. */
  const EmptyMusic := Music("", "", "", 0, false)

  /** The snapshot the handler builds from the current one and a payload:
      the playing flag from the status when given (true exactly for
      "Playing"), inherited otherwise; the other fields all inherited without
      a Metadata dictionary and all taken from it (empty where absent) with one. */
  function Merge(current: Music, c: Changes): (m: Music)
    requires c.metadata.Some? ==> WellTyped(c.metadata.value)
    ensures c.playbackStatus.None? ==> m.isPlaying == current.isPlaying
    ensures c.metadata.None? ==> m == current.(isPlaying := m.isPlaying)
    ensures c.metadata.Some? ==> var d := Decode(c.metadata.value);
              m.trackId == d.trackId && m.artist == d.artist && m.title == d.title && m.durationUs == d.lengthUs
  {
    var playing := match c.playbackStatus case Some(status) => status == Playing case None => current.isPlaying;
    match c.metadata
    case None => Music(current.trackId, current.artist, current.title, current.durationUs, playing)
    case Some(entries) =>
      var d := Decode(entries);
      Music(d.trackId, d.artist, d.title, d.lengthUs, playing)
  }

  /** A new track: the merged id is not empty and differs from the current one. */
  predicate IsNewTrack(current: Music, merged: Music): (b: bool)
    ensures b ==> merged != current && merged.trackId != EmptyMusic.trackId
  {
    merged.trackId != "" && merged.trackId != current.trackId
  }

  /** A payload without a status keeps the playing flag; with one, the flag
      is whether it reads "Playing". */
  lemma MergePlaying(current: Music, c: Changes)
    requires c.metadata.Some? ==> WellTyped(c.metadata.value)
    ensures c.playbackStatus.None? ==> Merge(current, c).isPlaying == current.isPlaying
    ensures c.playbackStatus.Some? ==> (Merge(current, c).isPlaying <==> c.playbackStatus.value == Playing)
  {
  }

  /** Without a Metadata dictionary no descriptive field changes. */
  lemma MergeInheritsWithoutMetadata(current: Music, c: Changes)
    requires c.metadata.None?
    ensures var m := Merge(current, c);
            m.trackId == current.trackId && m.artist == current.artist && m.title == current.title
            && m.durationUs == current.durationUs
    ensures !IsNewTrack(current, Merge(current, c))
  {
  }

  /** With a Metadata dictionary every descriptive field comes from it, so a
      key it lacks resets that field. */
  lemma MergeResetsFromMetadata(current: Music, c: Changes)
    requires c.metadata.Some? && WellTyped(c.metadata.value)
    ensures var m, es := Merge(current, c), c.metadata.value;
            ((forall i :: 0 <= i < |es| ==> es[i].key != TrackIdKey) ==> m.trackId == "")
            && ((forall i :: 0 <= i < |es| ==> es[i].key != TitleKey) ==> m.title == "")
            && ((forall i :: 0 <= i < |es| ==> es[i].key != ArtistKey) ==> m.artist == "")
            && ((forall i :: 0 <= i < |es| ==> es[i].key != LengthKey) ==> m.durationUs == 0)
  {
    AbsentKeysReset(c.metadata.value);
  }

  class Engine {
    var music: Music
    var lyrics: seq<LyricLine>
    var currentLyricText: string
    var syncTime: int
    var syncPositionUs: int

    /** The lyrics only ever come from the parser. */
    ghost predicate Valid()
      reads this
    {
      WellFormed(lyrics)
    }

    /** The globals' static initial values; the clock's epoch is time 0. */
    constructor ()
      ensures Valid()
      ensures music == EmptyMusic && lyrics == [] && currentLyricText == ""
      ensures syncTime == 0 && syncPositionUs == 0
    {
      music := EmptyMusic;
      lyrics := [];
      currentLyricText := "";
      syncTime := 0;
      syncPositionUs := 0;
    }

    /** `sync_position_from_dbus`: a successful read re-anchors at (read
        position, now); a failed one changes nothing. */
    method Resync(read: Option<int>, now: int)
      requires now >= syncTime
      modifies this`syncPositionUs, this`syncTime
      ensures read.Some? ==> syncPositionUs == read.value && syncTime == now
      ensures read.None? ==> syncPositionUs == old(syncPositionUs) && syncTime == old(syncTime)
    {
      if read.Some? {
        syncPositionUs := read.value;
        syncTime := now;
      }
    }

    /** `on_any_signal`: build the new snapshot and lyrics, replace both
        wholesale, and on a new track clear the lyric text and resync. The
        play/pause comparison the handler makes next reads the snapshot it
        has just overwritten, so it never fires. */
    method ApplyChange(sig: Signal, read: Option<int>, now: int)
      requires Valid() && now >= syncTime
      requires SignalWellTyped(sig)
      modifies this
      ensures Valid()
      ensures !Handled(sig) ==>
                music == old(music) && lyrics == old(lyrics) && currentLyricText == old(currentLyricText)
      ensures Handled(sig) ==> music == Merge(old(music), sig.params.value)
      ensures Handled(sig) && sig.params.value.metadata.None? ==> lyrics == old(lyrics)
      ensures Handled(sig) && sig.params.value.metadata.Some? ==>
                LyricsFor(lyrics, Decode(sig.params.value.metadata.value).lyricText)
      // A new track clears the text and resyncs ...
      ensures Handled(sig) && IsNewTrack(old(music), music) ==>
                currentLyricText == ""
                && (read.Some? ==> syncPositionUs == read.value && syncTime == now)
                && (read.None? ==> syncPositionUs == old(syncPositionUs) && syncTime == old(syncTime))
      // ... and nothing else does, not even a play/pause change.
      ensures !(Handled(sig) && IsNewTrack(old(music), music)) ==>
                currentLyricText == old(currentLyricText)
                && syncPositionUs == old(syncPositionUs) && syncTime == old(syncTime)
    {
      if sig.name != PropertiesChanged || sig.params.None? {
        return;
      }
      var c := sig.params.value;
      var playing := match c.playbackStatus case Some(status) => status == Playing case None => music.isPlaying;
      var merged: Music;
      var newLyrics: seq<LyricLine>;
      match c.metadata {
        case Some(entries) =>
          var trackId, title, artist, lengthUs, parsed := ScanMetadata(entries);
          merged := Music(trackId, artist, title, lengthUs, playing);
          newLyrics := parsed;
        case None =>
          merged := Music(music.trackId, music.artist, music.title, music.durationUs, playing);
          newLyrics := lyrics;
      }
      var isNewTrack := merged.trackId != "" && merged.trackId != music.trackId;
      music := merged;
      lyrics := newLyrics;
      if isNewTrack {
        currentLyricText := "";
        Resync(read, now);
      } else {
        var playbackStateChanged := merged.isPlaying != music.isPlaying;
        if playbackStateChanged {
          // the resync the handler would issue here cannot be reached
          assert false;
        }
      }
    }

    /** `predictive_update`: predict the position, resolve it to the text of
        the last line that has started ("" if none) and store that text. The
        position handed to the output sink is returned. */
    method Tick(now: int) returns (displayPositionUs: int)
      requires Valid() && now >= syncTime
      modifies this`currentLyricText
      ensures displayPositionUs == Predict(syncPositionUs, syncTime, music.isPlaying, now)
      ensures currentLyricText == ActiveText(lyrics, displayPositionUs)
      ensures Valid()
    {
      var predicted := syncPositionUs;
      if music.isPlaying {
        var elapsed := now - syncTime;
        predicted := predicted + elapsed;
      }
      var newLyric := "";
      if |lyrics| > 0 {
        var index := ResolveIndex(lyrics, predicted);
        if index != -1 {
          newLyric := lyrics[index].text;
        }
      }
      currentLyricText := newLyric;
      displayPositionUs := predicted;
    }
  }
}
