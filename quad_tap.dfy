/** Opening the notes editor by tapping the preview four times in quick
    succession (search.kt:72-90). The clock is a parameter: `now` is the
    time of the tap in milliseconds. */
module QuadTap {
  import opened Wrappers

  /** Taps at most this many milliseconds apart belong to one burst. */
  const TapWindowMs: int := 500

  /** The tap of a burst that opens the editor. */
  const TapsToEdit: int := 4

  /** The burst count after a tap at `now`, before the reset. */
  function NextCount(tapCount: int, lastTapTimeMs: int, now: int): int {
    if now - lastTapTimeMs <= TapWindowMs then tapCount + 1 else 1
  }

  /** Whether a tap opens the editor, and the count it leaves behind. */
  datatype TapOutcome = TapOutcome(tapCount: int, opensEditor: bool)

  function Tap(tapCount: int, lastTapTimeMs: int, now: int): (r: TapOutcome)
    ensures r.opensEditor <==> NextCount(tapCount, lastTapTimeMs, now) >= TapsToEdit
    ensures r.opensEditor ==> r.tapCount == 0
    ensures !r.opensEditor ==> r.tapCount == NextCount(tapCount, lastTapTimeMs, now)
  {
    var c := NextCount(tapCount, lastTapTimeMs, now);
    if c >= TapsToEdit then TapOutcome(0, true) else TapOutcome(c, false)
  }

  /** The saveable state the tap handler reads and writes. */
  class EditorTapState {
    var tapCount: int
    var lastTapTimeMs: int
    var showEditor: bool
    var draftJson: string
    var draftError: Option<string>

    predicate Valid()
      reads this
    {
      0 <= tapCount < TapsToEdit
    }

    /** The state when the screen is first composed. */
    constructor (notesJson: string)
      ensures Valid()
      ensures tapCount == 0 && lastTapTimeMs == 0 && !showEditor
      ensures draftJson == notesJson && draftError == None
    {
      tapCount := 0;
      lastTapTimeMs := 0;
      showEditor := false;
      draftJson := notesJson;
      draftError := None;
    }

    /** `onPreviewTapped`: count the tap into the current burst or start a
        new one, remember its time, and on the fourth tap of a burst reset
        the count and open the editor on a fresh draft of the notes. */
    method OnPreviewTapped(now: int, notesJson: string)
      requires Valid()
      modifies this
      ensures Valid()
      ensures lastTapTimeMs == now
      ensures tapCount == Tap(old(tapCount), old(lastTapTimeMs), now).tapCount
      ensures Tap(old(tapCount), old(lastTapTimeMs), now).opensEditor ==>
        showEditor && draftJson == notesJson && draftError == None
      ensures !Tap(old(tapCount), old(lastTapTimeMs), now).opensEditor ==>
        showEditor == old(showEditor) && draftJson == old(draftJson) && draftError == old(draftError)
    {
      if now - lastTapTimeMs <= TapWindowMs {
        tapCount := tapCount + 1;
      } else {
        tapCount := 1;
      }
      lastTapTimeMs := now;
      if tapCount >= TapsToEdit {
        tapCount := 0;
        draftJson := notesJson;
        draftError := None;
        showEditor := true;
      }
    }
  }

  /** The count after a series of taps at `times`, and how many of them
      opened the editor. */
  function Taps(tapCount: int, lastTapTimeMs: int, times: seq<int>): (int, nat)
    decreases |times|
  {
    if |times| == 0 then (tapCount, 0)
    else
      var o := Tap(tapCount, lastTapTimeMs, times[0]);
      var rest := Taps(o.tapCount, times[0], times[1..]);
      (rest.0, rest.1 + if o.opensEditor then 1 else 0)
  }

  /** Every tap of `times` is within the window of the one before it, the
      first within the window of `lastTapTimeMs`. */
  predicate OneBurst(lastTapTimeMs: int, times: seq<int>) {
    && (|times| > 0 ==> times[0] - lastTapTimeMs <= TapWindowMs)
    && forall i :: 0 < i < |times| ==> times[i] - times[i - 1] <= TapWindowMs
  }

  /** Continuing a burst: every fourth tap opens the editor and the count
      wraps around. */
  lemma {:induction false} ContinuedBurst(tapCount: int, lastTapTimeMs: int, times: seq<int>)
    requires 0 <= tapCount < TapsToEdit
    requires OneBurst(lastTapTimeMs, times)
    ensures Taps(tapCount, lastTapTimeMs, times) ==
      ((tapCount + |times|) % TapsToEdit, (tapCount + |times|) / TapsToEdit)
    decreases |times|
  {
    if |times| > 0 {
      var o := Tap(tapCount, lastTapTimeMs, times[0]);
      assert OneBurst(times[0], times[1..]) by {
        forall i | 0 < i < |times| - 1 ensures times[1..][i] - times[1..][i - 1] <= TapWindowMs {
          assert times[1..][i] == times[i + 1] && times[1..][i - 1] == times[i];
        }
      }
      ContinuedBurst(o.tapCount, times[0], times[1..]);
    }
  }

  /** A burst that starts after a pause opens the editor on its 4th, 8th, …
      tap, and leaves the number of taps since the last opening. */
  lemma FreshBurst(tapCount: int, lastTapTimeMs: int, times: seq<int>)
    requires |times| > 0 && times[0] - lastTapTimeMs > TapWindowMs
    requires OneBurst(times[0], times[1..])
    ensures Taps(tapCount, lastTapTimeMs, times) == (|times| % TapsToEdit, |times| / TapsToEdit)
  {
    ContinuedBurst(1, times[0], times[1..]);
  }

  /** Taps that are all more than the window apart never open the editor. */
  lemma {:induction false} SlowTapsNeverOpen(tapCount: int, lastTapTimeMs: int, times: seq<int>)
    requires |times| > 0 && times[0] - lastTapTimeMs > TapWindowMs
    requires forall i :: 0 < i < |times| ==> times[i] - times[i - 1] > TapWindowMs
    ensures Taps(tapCount, lastTapTimeMs, times) == (1, 0)
    decreases |times|
  {
    if |times| > 1 {
      assert times[1..][0] - times[0] > TapWindowMs;
      forall i | 0 < i < |times| - 1 ensures times[1..][i] - times[1..][i - 1] > TapWindowMs {
        assert times[1..][i] == times[i + 1] && times[1..][i - 1] == times[i];
      }
      SlowTapsNeverOpen(1, times[0], times[1..]);
    }
  }

  /** Four taps 100 ms apart after a pause open the editor once, on the last. */
  lemma QuadTapExample()
    ensures Taps(0, 0, [1000, 1100, 1200, 1300]) == (0, 1)
    ensures Taps(0, 0, [1000, 1100, 1200]) == (3, 0)
    ensures Taps(0, 0, [1000, 1100, 1700, 1800]) == (2, 0)
  {
    FreshBurst(0, 0, [1000, 1100, 1200, 1300]);
    FreshBurst(0, 0, [1000, 1100, 1200]);
    var t := [1000, 1100, 1700, 1800];
    assert t[1..][1..] == [1700, 1800];
    FreshBurst(2, 1100, [1700, 1800]);
  }
}
