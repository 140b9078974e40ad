/**
 * The player bar: `formatTime`, the time shown for the current progress,
 * the interval that advances `progress` while playing, and the play/pause
 * toggle. Progress is a `real`, so `0.2` is added exactly.
 */
module MusicPlayer {

  import opened Wrappers
  import opened Text

  /** `totalTime`: three minutes, in seconds. */
  const TotalTime: real := 180.0

  /** What one tick of the interval adds to `progress`. */
  const Step: real := 0.2

  // ---------------------------------------------------------------------------
  // formatTime
  // ---------------------------------------------------------------------------

  /** Conversion of a number towards zero. */
  function Trunc(x: real): (n: int)
    ensures x >= 0.0 ==> 0 <= n && n as real <= x < n as real + 1.0
    ensures x < 0.0 ==> n <= 0 && n as real - 1.0 < x <= n as real
  {
    if x >= 0.0 then x.Floor else -((-x).Floor)
  }

  /**
   * JavaScript's `seconds % 60`: the remainder of the division truncated
   * towards zero, so it has the sign of `seconds` and is smaller than 60 in size.
   */
  function Rem60(seconds: real): (r: real)
    ensures seconds >= 0.0 ==> 0.0 <= r < 60.0
    ensures seconds < 0.0 ==> -60.0 < r <= 0.0
    ensures Trunc(seconds / 60.0) as real * 60.0 + r == seconds
  {
    seconds - 60.0 * (Trunc(seconds / 60.0) as real)
  }

  /**
   * The seconds field: a `'0'` in front of values below 10. A value in
   * 0..59 prints as two digits that read back as the value.
   */
  function SecondsField(sec: int): (f: string)
    ensures 0 <= sec < 60 ==> |f| == 2 && AllDigits(f) && DigitsValue(f) == sec
  {
    if sec < 10 then
      var f := "0" + IntToString(sec);
      assert 0 <= sec ==> f[..1] == "0" && DigitsValue(f[..1]) == 0;
      f
    else IntToString(sec)
  }

  /** `formatTime(seconds)`: `${min}:${sec}` with `min = floor(seconds / 60)` and `sec = floor(seconds % 60)`. */
  function FormatTime(seconds: real): (t: string)
    ensures seconds >= 0.0 ==> ParseClock(t) == Some(seconds.Floor)
    ensures seconds >= 0.0 ==> |t| == 4 || t[0] != '0'
  {
    var min := (seconds / 60.0).Floor;
    var sec := Rem60(seconds).Floor;
    var m, s := IntToString(min), SecondsField(sec);
    if seconds >= 0.0 then
      FormatTimeFields(seconds);
      ClockRoundTrip(m, s, min, sec);
      m + ":" + s
    else m + ":" + s
  }

  /** For a time that is not negative, the two fields split its whole seconds. */
  lemma FormatTimeFields(seconds: real)
    requires seconds >= 0.0
    ensures var min := (seconds / 60.0).Floor;
            var sec := Rem60(seconds).Floor;
            && 0 <= min && 0 <= sec < 60
            && min * 60 + sec == seconds.Floor
  {
    var min := (seconds / 60.0).Floor;
    assert min as real <= seconds / 60.0 < min as real + 1.0;
    assert 60.0 * min as real <= seconds < 60.0 * min as real + 60.0;
    assert Trunc(seconds / 60.0) == min;
    var rem := seconds - 60.0 * min as real;
    assert Rem60(seconds) == rem;
    assert rem.Floor as real <= rem < rem.Floor as real + 1.0;
    assert (rem.Floor + 60 * min) as real <= seconds < (rem.Floor + 60 * min) as real + 1.0;
  }

  /**
   * Reads `m:ss` back as a number of seconds; `None` for anything else,
   * including a minutes field with a leading zero, which `${min}` never prints.
   */
  function ParseClock(t: string): (r: Option<nat>)
    ensures r.Some? ==> |t| >= 4 && t[|t| - 3] == ':'
    ensures r.Some? ==> |t| == 4 || t[0] != '0'
  {
    if |t| >= 4 && t[|t| - 3] == ':' && AllDigits(t[..|t| - 3]) && AllDigits(t[|t| - 2..])
       && (|t| == 4 || t[0] != '0') && DigitsValue(t[|t| - 2..]) < 60
    then Some(DigitsValue(t[..|t| - 3]) * 60 + DigitsValue(t[|t| - 2..]))
    else None
  }

  /** Minutes and two-digit seconds joined by a colon read back as their total in seconds. */
  lemma ClockRoundTrip(m: string, s: string, min: nat, sec: nat)
    requires |m| > 0 && AllDigits(m) && DigitsValue(m) == min
    requires |m| == 1 || m[0] != '0'
    requires |s| == 2 && AllDigits(s) && DigitsValue(s) == sec && sec < 60
    ensures ParseClock(m + ":" + s) == Some(min * 60 + sec)
  {
    var t := m + ":" + s;
    assert t[..|t| - 3] == m && t[|t| - 2..] == s && t[0] == m[0];
  }

  /** The total time of the bar is shown as "3:00". */
  lemma FormatTotalTime()
    ensures FormatTime(TotalTime) == "3:00"
  {
    assert (TotalTime / 60.0).Floor == 3;
    assert Rem60(TotalTime) == 0.0;
  }

  // ---------------------------------------------------------------------------
  // currentTime and the play interval
  // ---------------------------------------------------------------------------

  /** `currentTime = (progress / 100) * totalTime`. */
  function ElapsedSeconds(progress: real): (t: real)
    ensures t * 100.0 == progress * TotalTime
    ensures progress == 0.0 ==> t == 0.0
    ensures 0.0 <= progress <= 100.0 ==> 0.0 <= t <= TotalTime
  {
    (progress / 100.0) * TotalTime
  }

  /** More progress shows more time, and the other way round. */
  lemma ElapsedSecondsMonotone(a: real, b: real)
    ensures a <= b <==> ElapsedSeconds(a) <= ElapsedSeconds(b)
  {
  }

  /** What the interval's `setProgress` updater returns, and whether it stops playback. */
  datatype PlayTick = PlayTick(progress: real, stop: bool)

  /** The updater: at 100 or more playback stops and progress goes back to 0, otherwise it grows by 0.2. */
  function NextProgress(prev: real): (r: PlayTick)
    ensures r.stop <==> prev >= 100.0
    ensures r.stop ==> r.progress == 0.0
    ensures !r.stop ==> r.progress == prev + Step
    ensures 0.0 <= prev < 100.0 + Step ==> 0.0 <= r.progress < 100.0 + Step
  {
    if prev >= 100.0 then PlayTick(0.0, true) else PlayTick(prev + Step, false)
  }

  /**
   * `n` ticks of the interval from `prev`, ending early once playback stops:
   * either playback stopped and progress is back at 0, or every tick added
   * one step.
   */
  function Play(prev: real, n: nat): (r: PlayTick)
    ensures r.stop ==> r.progress == 0.0
    ensures !r.stop ==> r.progress == prev + Step * n as real
    decreases n
  {
    if n == 0 then PlayTick(prev, false)
    else
      var r := NextProgress(prev);
      if r.stop then r else Play(r.progress, n - 1)
  }

  /** Starting from `k` steps, `n` more ticks keep playing while the total stays within 500 steps. */
  lemma {:induction false} PlayFrom(k: nat, n: nat)
    requires k + n <= 500
    ensures Play(Step * k as real, n) == PlayTick(Step * (k + n) as real, false)
    decreases n
  {
    if n > 0 {
      assert NextProgress(Step * k as real) == PlayTick(Step * (k + 1) as real, false);
      PlayFrom(k + 1, n - 1);
    }
  }

  /** From the start, 500 ticks reach 100; the 501st stops playback and rewinds to 0. */
  lemma PlaysFiveHundredTicks()
    ensures Play(0.0, 500) == PlayTick(100.0, false)
    ensures Play(0.0, 501) == PlayTick(0.0, true)
  {
    PlayFrom(0, 500);
    PlayAfter(0.0, 500, 1);
  }

  /** Playing `n` ticks and then `m` more is playing `n + m`, if the first `n` did not stop. */
  lemma {:induction false} PlayAfter(prev: real, n: nat, m: nat)
    requires !Play(prev, n).stop
    ensures Play(prev, n + m) == Play(Play(prev, n).progress, m)
    decreases n
  {
    if n > 0 {
      var r := NextProgress(prev);
      PlayAfter(r.progress, n - 1, m);
    }
  }

  /** While the progress stays below 100.2, the bar never shows more than the total time. */
  lemma DisplayedTimeWithinTotal(progress: real)
    requires 0.0 <= progress < 100.0 + Step
    ensures ParseClock(FormatTime(ElapsedSeconds(progress))).Some?
    ensures ParseClock(FormatTime(ElapsedSeconds(progress))).value <= 180
  {
    var t := ElapsedSeconds(progress);
    assert t < 181.0;
  }

  class Player {
    var isPlaying: bool
    var progress: real

    ghost predicate Valid()
      reads this
    {
      0.0 <= progress < 100.0 + Step
    }

    constructor ()
      ensures Valid() && !isPlaying && progress == 0.0
    {
      isPlaying := false;
      progress := 0.0;
    }

    /** `togglePlayPause`. */
    method TogglePlayPause()
      requires Valid()
      modifies this`isPlaying
      ensures Valid()
      ensures isPlaying == !old(isPlaying)
    {
      isPlaying := !isPlaying;
    }

    /** One firing of the interval, which exists only while `isPlaying`. */
    method Tick()
      requires Valid()
      modifies this
      ensures Valid()
      ensures !old(isPlaying) ==> progress == old(progress) && !isPlaying
      ensures old(isPlaying) ==>
        progress == NextProgress(old(progress)).progress && isPlaying == !NextProgress(old(progress)).stop
    {
      if !isPlaying {
        return;
      }
      if progress >= 100.0 {
        isPlaying := false;
        progress := 0.0;
      } else {
        progress := progress + Step;
      }
    }

    /** `currentTime`. */
    function CurrentTime(): (t: real)
      requires Valid()
      reads this
      ensures t * 100.0 == progress * TotalTime
      ensures 0.0 <= t < TotalTime + 1.0
    {
      ElapsedSeconds(progress)
    }
  }
}
