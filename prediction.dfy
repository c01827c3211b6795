/** The position predictor and the lyric resolver, shared by `predictive_update`
    (backend/my_backend/dbus_service.cpp) and `predictive_update_and_display`
    (backend/my_backend/mpris_listener.cpp).

    Times are integer microseconds read from a monotonic clock; the position
    is extrapolated linearly from the last (position, time) anchor while
    playing and frozen while paused, then resolved to the last lyric line that
    has started by a forward scan that stops at the first later line. */
module Prediction {
  import opened Lrc

  /** The predicted playback position at time `now`. */
  function Predict(anchorUs: int, anchorTime: int, playing: bool, now: int): (p: int)
    ensures !playing ==> p == anchorUs
    ensures playing && anchorTime <= now ==> anchorUs <= p
  {
    if playing then anchorUs + (now - anchorTime) else anchorUs
  }

  /** While paused the prediction is the anchor, whatever the time. */
  lemma PredictFrozenWhilePaused(anchorUs: int, anchorTime: int, now: int)
    ensures Predict(anchorUs, anchorTime, false, now) == anchorUs
  {
  }

  /** While playing the prediction advances exactly with the clock, and
      equals the anchor at the anchor time. */
  lemma PredictLinearWhilePlaying(anchorUs: int, anchorTime: int, t1: int, t2: int)
    ensures Predict(anchorUs, anchorTime, true, anchorTime) == anchorUs
    ensures Predict(anchorUs, anchorTime, true, t2) - Predict(anchorUs, anchorTime, true, t1) == t2 - t1
    ensures anchorTime <= t1 ==> anchorUs <= Predict(anchorUs, anchorTime, true, t1)
  {
  }

  /** The index the scan settles on: the line before the first line that
      starts after `p` (the scan breaks there), or -1 if the first line does. */
  function ActiveIndex(lyrics: seq<LyricLine>, p: int): (i: int)
    ensures -1 <= i < |lyrics|
    ensures forall j :: 0 <= j <= i ==> lyrics[j].timestampUs <= p
    ensures i + 1 < |lyrics| ==> lyrics[i + 1].timestampUs > p
  {
    if lyrics == [] || lyrics[0].timestampUs > p then -1
    else 1 + ActiveIndex(lyrics[1..], p)
  }

  /** On sorted lyrics the scan's answer is the last line at or before `p`:
      a line has started exactly when its index is at most the answer. */
  lemma ActiveIndexIsLastStarted(lyrics: seq<LyricLine>, p: int)
    requires SortedByTime(lyrics)
    ensures forall j :: 0 <= j < |lyrics| ==> (lyrics[j].timestampUs <= p <==> j <= ActiveIndex(lyrics, p))
  {
    var i := ActiveIndex(lyrics, p);
    forall j | 0 <= j < |lyrics| && j > i
      ensures lyrics[j].timestampUs > p
    {
      assert lyrics[i + 1].timestampUs <= lyrics[j].timestampUs;
    }
  }

  /** No line is active exactly when there are no lyrics or the first line
      has not started yet. */
  lemma NoActiveLine(lyrics: seq<LyricLine>, p: int)
    ensures ActiveIndex(lyrics, p) == -1 <==> lyrics == [] || p < lyrics[0].timestampUs
  {
  }

  /** The scan loop: move forward while lines have started, stop at the
      first one that has not. */
  method ResolveIndex(lyrics: seq<LyricLine>, p: int) returns (index: int)
    ensures index == ActiveIndex(lyrics, p)
  {
    index := -1;
    var i := 0;
    while i < |lyrics|
      invariant 0 <= i <= |lyrics|
      invariant index == i - 1
      invariant forall j :: 0 <= j < i ==> lyrics[j].timestampUs <= p
    {
      if p >= lyrics[i].timestampUs {
        index := i;
      } else {
        break;
      }
      i := i + 1;
    }
  }

  /** The lyric text shown at `p`: that of the active line, or "" if none. */
  function ActiveText(lyrics: seq<LyricLine>, p: int): (t: string)
    ensures ActiveIndex(lyrics, p) == -1 ==> t == ""
    ensures t != "" ==> exists i :: 0 <= i < |lyrics| && lyrics[i].timestampUs <= p && t == lyrics[i].text
  {
    var i := ActiveIndex(lyrics, p);
    if i == -1 then "" else lyrics[i].text
  }

  /** On well-formed lyrics the text is empty exactly when no line has
      started, and otherwise is the text of the last line that has. */
  lemma ActiveTextCharacterised(lyrics: seq<LyricLine>, p: int)
    requires WellFormed(lyrics)
    ensures ActiveText(lyrics, p) == "" <==> lyrics == [] || p < lyrics[0].timestampUs
    ensures ActiveText(lyrics, p) != "" ==>
              exists i :: 0 <= i < |lyrics| && lyrics[i].timestampUs <= p && ActiveText(lyrics, p) == lyrics[i].text
                          && forall j :: i < j < |lyrics| ==> lyrics[j].timestampUs > p
  {
    NoActiveLine(lyrics, p);
    ActiveIndexIsLastStarted(lyrics, p);
    var i := ActiveIndex(lyrics, p);
    if i != -1 {
      assert GoodLine(lyrics[i]);
    }
  }

  /** The resolution boundary examples: a line becomes active at its own
      timestamp, not before. */
  lemma ResolutionExamples()
    ensures var ls := [LyricLine(0, "a"), LyricLine(1_000_000, "b"), LyricLine(2_000_000, "c")];
            ActiveIndex(ls, 999_999) == 0 && ActiveIndex(ls, 1_000_000) == 1
            && ActiveIndex(ls, -5) == -1 && ActiveIndex(ls, 7_000_000) == 2
  {
    var ls := [LyricLine(0, "a"), LyricLine(1_000_000, "b"), LyricLine(2_000_000, "c")];
    assert ls[1..] == [LyricLine(1_000_000, "b"), LyricLine(2_000_000, "c")];
    assert ls[1..][1..] == [LyricLine(2_000_000, "c")];
  }

  /** A track with lines at 0 s and 3 s, anchored at position 0 and
      playing: three and a half seconds later the scan picks the second line. */
  lemma PlayingScanExample(t0: int)
    ensures var ls := [LyricLine(0, "first"), LyricLine(3_000_000, "second")];
            var p := Predict(0, t0, true, t0 + 3_500_000);
            p == 3_500_000 && ActiveIndex(ls, p) == 1
  {
    var ls := [LyricLine(0, "first"), LyricLine(3_000_000, "second")];
    assert ls[1..] == [LyricLine(3_000_000, "second")];
  }
}
