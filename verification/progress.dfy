/**
 * Transcoding progress: the `ProgressFilter` counters the frame callback
 * updates, the snapshot derived from them, and clock formatting.
 *
 * Fractions and rates are `real`s (the source uses `f32`/`f64`); times
 * are whole microseconds or, for formatting, whole seconds. The clock is
 * not read here: the elapsed time is a parameter of the snapshot.
 */
module Progress {
  import opened Wrappers
  import opened Ints
  import opened Text

  // ---------------------------------------------------------------------
  // The counters
  // ---------------------------------------------------------------------

  /** The counters of a `ProgressFilter`, as one value. */
  datatype FilterState = FilterState(
    framesProcessed: u64,
    totalFrames: u64,
    totalDurationUs: u64,
    currentTimeUs: u64,
    currentSize: u64,
    inputSize: u64)

  /**
   * The cancellation flag. It is shared: `cancel_flag` hands out the same
   * flag, so whoever holds it can cancel the transcode.
   */
  class CancelFlag {
    var raised: bool

    constructor()
      ensures !raised
    {
      raised := false;
    }
  }

  /** `ProgressFilter`: counters updated as frames pass through. */
  class ProgressFilter {
    var framesProcessed: u64
    var totalFrames: u64
    var totalDurationUs: u64
    var currentTimeUs: u64
    var currentSize: u64
    var inputSize: u64
    const cancelled: CancelFlag

    /** The counters as one value. */
    function State(): FilterState
      reads this
    {
      FilterState(framesProcessed, totalFrames, totalDurationUs, currentTimeUs, currentSize, inputSize)
    }

    /**
     * `new`: no frames yet, absent totals stored as 0, the duration's
     * microseconds cut to 64 bits, and a fresh flag that is not raised.
     */
    constructor(frames: Option<u64>, durationUs: Option<nat>)
      ensures State() == FilterState(0, frames.GetOr(0), TruncateToU64(durationUs.GetOr(0)), 0, 0, 0)
      ensures fresh(cancelled) && !cancelled.raised
    {
      framesProcessed := 0;
      totalFrames := frames.GetOr(0);
      totalDurationUs := TruncateToU64(durationUs.GetOr(0));
      currentTimeUs := 0;
      currentSize := 0;
      inputSize := 0;
      cancelled := new CancelFlag();
    }

    /** `set_input_size`. */
    method SetInputSize(size: u64)
      modifies this
      ensures State() == old(State()).(inputSize := size)
    {
      inputSize := size;
    }

    /** `set_current_size`. */
    method SetCurrentSize(size: u64)
      modifies this
      ensures State() == old(State()).(currentSize := size)
    {
      currentSize := size;
    }

    /** `cancel_flag`: the shared flag itself, not a copy. */
    method CancelFlagHandle() returns (flag: CancelFlag)
      ensures flag == cancelled
    {
      flag := cancelled;
    }

    /**
     * `on_frame`: one more frame (wrapping like `fetch_add`), and the
     * current time moves to the frame's timestamp when it has one.
     */
    method OnFrame(ptsUs: Option<u64>)
      modifies this
      ensures State() == old(State()).(
        framesProcessed := WrappingAddU64(old(framesProcessed), 1),
        currentTimeUs := ptsUs.GetOr(old(currentTimeUs)))
    {
      framesProcessed := WrappingAddU64(framesProcessed, 1);
      if ptsUs.Some? {
        currentTimeUs := ptsUs.value;
      }
    }

    /** `set_total_frames`. */
    method SetTotalFrames(frames: u64)
      modifies this
      ensures State() == old(State()).(totalFrames := frames)
    {
      totalFrames := frames;
    }

    /** `set_total_duration`: the duration's microseconds, cut to 64 bits. */
    method SetTotalDuration(durationUs: nat)
      modifies this
      ensures State() == old(State()).(totalDurationUs := TruncateToU64(durationUs))
    {
      totalDurationUs := TruncateToU64(durationUs);
    }

    /** `cancel`: raises the shared flag; the counters stay as they are. */
    method Cancel()
      modifies cancelled
      ensures cancelled.raised
    {
      cancelled.raised := true;
    }

    /** `is_cancelled`. */
    function IsCancelled(): bool
      reads cancelled
    {
      cancelled.raised
    }

    /** `get_progress`, `elapsed` seconds after the filter was created. */
    function Snapshot(elapsed: real): TranscodeProgress
      requires elapsed >= 0.0
      reads this
    {
      SnapshotOf(State(), elapsed)
    }
  }

  /** A new filter is not cancelled until someone raises its flag. */
  method CancelScenario() returns (before: bool, after: bool)
    ensures !before && after
  {
    var f := new ProgressFilter(Some(100), None);
    before := f.IsCancelled();
    var handle := f.CancelFlagHandle();
    handle.raised := true;
    after := f.IsCancelled();
  }

  // ---------------------------------------------------------------------
  // The snapshot
  // ---------------------------------------------------------------------

  /** `TranscodeProgress`; times in seconds or microseconds as named. */
  datatype TranscodeProgress = TranscodeProgress(
    framesProcessed: nat,
    totalFrames: Option<nat>,
    progress: real,
    fps: real,
    elapsed: real,
    remaining: Option<real>,
    currentTimeUs: nat,
    totalTimeUs: Option<nat>,
    currentSize: nat,
    estimatedSize: Option<nat>)

  function Min1(x: real): real
  {
    if x < 1.0 then x else 1.0
  }

  /**
   * The completed fraction: by time when a duration is known, else by
   * frames when a frame total is known, else 0.
   */
  function Fraction(s: FilterState): real
  {
    if s.totalDurationUs > 0 then Min1(s.currentTimeUs as real / s.totalDurationUs as real)
    else if s.totalFrames > 0 then Min1(s.framesProcessed as real / s.totalFrames as real)
    else 0.0
  }

  /** A fraction of counts is 0 exactly with no count, and 1 exactly from the total on. */
  lemma RatioFraction(n: nat, d: nat)
    requires d > 0
    ensures 0.0 <= Min1(n as real / d as real) <= 1.0
    ensures Min1(n as real / d as real) == 0.0 <==> n == 0
    ensures Min1(n as real / d as real) == 1.0 <==> n >= d
  {
    var q := n as real / d as real;
    assert q * d as real == n as real;
    if n >= d {
      assert q >= 1.0;
    } else {
      assert q < 1.0;
    }
  }

  /**
   * The fraction lies in [0, 1]; it reaches 1 exactly when the position
   * reaches the duration (or, without a duration, the frames reach the
   * total) and is 0 exactly when nothing is known or nothing is done.
   */
  lemma FractionSpec(s: FilterState)
    ensures 0.0 <= Fraction(s) <= 1.0
    ensures Fraction(s) == 1.0 <==>
      (s.totalDurationUs > 0 && s.currentTimeUs >= s.totalDurationUs)
      || (s.totalDurationUs == 0 && s.totalFrames > 0 && s.framesProcessed >= s.totalFrames)
    ensures Fraction(s) == 0.0 <==>
      (s.totalDurationUs > 0 && s.currentTimeUs == 0)
      || (s.totalDurationUs == 0 && (s.totalFrames == 0 || s.framesProcessed == 0))
  {
    if s.totalDurationUs > 0 {
      RatioFraction(s.currentTimeUs, s.totalDurationUs);
    } else if s.totalFrames > 0 {
      RatioFraction(s.framesProcessed, s.totalFrames);
    }
  }

  /** The remaining-time estimate: only strictly between 0 and 1, never negative. */
  function Remaining(p: real, elapsed: real): Option<real>
  {
    if p > 0.0 && p < 1.0 then
      var rest := elapsed / p - elapsed;
      Some(if rest > 0.0 then rest else 0.0)
    else None
  }

  /**
   * There is an estimate exactly when 0 < p < 1, and it is what the
   * elapsed time predicts for the rest: elapsed·(1 − p)/p, never negative.
   */
  lemma RemainingSpec(p: real, elapsed: real)
    requires elapsed >= 0.0
    ensures Remaining(p, elapsed).Some? <==> 0.0 < p < 1.0
    ensures Remaining(p, elapsed).Some? ==>
      Remaining(p, elapsed).value >= 0.0
      && Remaining(p, elapsed).value * p == elapsed * (1.0 - p)
  {
    if 0.0 < p < 1.0 {
      var q := elapsed / p;
      assert q * p == elapsed;
      assert (q - elapsed) * p == elapsed * (1.0 - p);
      assert elapsed * (1.0 - p) >= 0.0;
    }
  }

  /** The final-size estimate: only past 5 % and once output exists. */
  function EstimatedSize(p: real, size: u64): Option<u64>
  {
    if p > 0.05 && size > 0 then Some(RealToU64(size as real / p)) else None
  }

  lemma QuotientBelow(x: real, p: real, n: real)
    requires x > 0.0 && p > 0.05 && x * p == n
    ensures x < 20.0 * n
  {
    assert x * 0.05 < x * p;
  }

  lemma QuotientAtLeast(x: real, p: real, n: real)
    requires x > 0.0 && p <= 1.0 && x * p == n
    ensures n <= x
  {
    assert x * p <= x * 1.0;
  }

  /** Dividing by a fraction above 5 % scales up by less than 20. */
  lemma QuotientBounds(n: real, p: real)
    requires n > 0.0 && 0.05 < p <= 1.0
    ensures n <= n / p < 20.0 * n
  {
    var x := n / p;
    assert x * p == n;
    QuotientBelow(x, p, n);
    QuotientAtLeast(x, p, n);
  }

  /**
   * There is an estimate exactly past 5 % with output on disk; it is never
   * below the current size and, short of saturation, below twenty times it.
   */
  lemma EstimatedSizeSpec(p: real, size: u64)
    requires p <= 1.0
    ensures EstimatedSize(p, size).Some? <==> p > 0.05 && size > 0
    ensures EstimatedSize(p, size).Some? ==>
      size <= EstimatedSize(p, size).value && EstimatedSize(p, size).value < 20 * size
  {
    if p > 0.05 && size > 0 {
      QuotientBounds(size as real, p);
    }
  }

  /** The snapshot the counters and the elapsed time determine. */
  function SnapshotOf(s: FilterState, elapsed: real): TranscodeProgress
    requires elapsed >= 0.0
  {
    var p := Fraction(s);
    FractionSpec(s);
    TranscodeProgress(
      s.framesProcessed,
      if s.totalFrames > 0 then Some(s.totalFrames) else None,
      p,
      if elapsed > 0.0 then s.framesProcessed as real / elapsed else 0.0,
      elapsed,
      Remaining(p, elapsed),
      s.currentTimeUs,
      if s.totalDurationUs > 0 then Some(s.totalDurationUs) else None,
      s.currentSize,
      EstimatedSize(p, s.currentSize))
  }

  /**
   * The snapshot reports an unknown total exactly when the stored total is
   * 0, keeps its fraction in [0, 1] with a non-negative rate, offers a
   * remaining time only mid-way and a size estimate only past 5 % of
   * progress with output on disk.
   */
  lemma SnapshotSpec(s: FilterState, elapsed: real)
    requires elapsed >= 0.0
    ensures var t := SnapshotOf(s, elapsed);
      (t.totalFrames.None? <==> s.totalFrames == 0)
      && (t.totalTimeUs.None? <==> s.totalDurationUs == 0)
      && 0.0 <= t.progress <= 1.0 && t.fps >= 0.0
      && (t.remaining.Some? <==> 0.0 < t.progress < 1.0)
      && (t.remaining.Some? ==> t.remaining.value >= 0.0)
      && (t.estimatedSize.Some? <==> t.progress > 0.05 && s.currentSize > 0)
      && (t.estimatedSize.Some? ==> t.estimatedSize.value >= s.currentSize)
  {
    FractionSpec(s);
    RemainingSpec(Fraction(s), elapsed);
    EstimatedSizeSpec(Fraction(s), s.currentSize);
  }

  // ---------------------------------------------------------------------
  // Clock formatting
  // ---------------------------------------------------------------------

  /** Hours, minutes and seconds of a number of seconds. */
  function ClockFields(secs: nat): (r: (nat, nat, nat))
    ensures r.1 < 60 && r.2 < 60
    ensures r.0 * 3600 + r.1 * 60 + r.2 == secs
  {
    (secs / 3600, (secs % 3600) / 60, secs % 60)
  }

  /** `{:02}`: at least two digits, zero-padded. */
  function Pad2(n: nat): (r: string)
    requires n < 100
    ensures |r| == 2 && AllDigits(r) && DigitsValue(r) == n
  {
    DigitsValueOfNatToString(n);
    if n < 10 then ['0', DigitChar(n)]
    else
      assert NatToString(n) == NatToString(n / 10) + [DigitChar(n % 10)];
      NatToString(n)
  }

  /** `format_duration`: `H:MM:SS` from one hour on, `MM:SS` below. */
  function FormatDuration(secs: nat): string
  {
    var (h, m, s) := ClockFields(secs);
    if h > 0 then NatToString(h) + ":" + Pad2(m) + ":" + Pad2(s)
    else Pad2(m) + ":" + Pad2(s)
  }

  /** Reads `H:MM:SS` or `MM:SS` back as a number of seconds. */
  function ClockSeconds(r: string): Option<nat>
  {
    if |r| < 5 || r[|r| - 3] != ':' then None
    else
      var mm, ss := r[|r| - 5..|r| - 3], r[|r| - 2..];
      if !AllDigits(mm) || !AllDigits(ss) then None
      else if |r| == 5 then Some(DigitsValue(mm) * 60 + DigitsValue(ss))
      else if |r| >= 7 && r[|r| - 6] == ':' && AllDigits(r[..|r| - 6]) then
        Some(DigitsValue(r[..|r| - 6]) * 3600 + DigitsValue(mm) * 60 + DigitsValue(ss))
      else None
  }

  /** A clock text of the long shape reads back as its three fields. */
  lemma ClockSecondsOfShape(r: string, hh: string, mm: string, ss: string)
    requires |r| >= 7 && r[|r| - 3] == ':' && r[|r| - 6] == ':'
    requires r[..|r| - 6] == hh && r[|r| - 5..|r| - 3] == mm && r[|r| - 2..] == ss
    requires AllDigits(hh) && AllDigits(mm) && AllDigits(ss)
    ensures ClockSeconds(r) == Some(DigitsValue(hh) * 3600 + DigitsValue(mm) * 60 + DigitsValue(ss))
  {
  }

  /** A long clock text reads back as its three fields. */
  lemma ClockSecondsLong(hh: string, mm: string, ss: string)
    requires hh != [] && AllDigits(hh)
    requires |mm| == 2 && AllDigits(mm) && |ss| == 2 && AllDigits(ss)
    ensures ClockSeconds(hh + ":" + mm + ":" + ss)
            == Some(DigitsValue(hh) * 3600 + DigitsValue(mm) * 60 + DigitsValue(ss))
  {
    var r := hh + ":" + mm + ":" + ss;
    assert |r| == |hh| + 6;
    assert r[|r| - 3] == ':' && r[|r| - 6] == ':';
    assert r[..|r| - 6] == hh;
    assert r[|r| - 5..|r| - 3] == mm && r[|r| - 2..] == ss;
    ClockSecondsOfShape(r, hh, mm, ss);
  }

  /** A short clock text reads back as its two fields. */
  lemma ClockSecondsShort(mm: string, ss: string)
    requires |mm| == 2 && AllDigits(mm) && |ss| == 2 && AllDigits(ss)
    ensures ClockSeconds(mm + ":" + ss) == Some(DigitsValue(mm) * 60 + DigitsValue(ss))
  {
    var r := mm + ":" + ss;
    assert r[|r| - 5..|r| - 3] == mm && r[|r| - 2..] == ss;
  }

  /**
   * Formatting loses nothing: reading the clock back gives the seconds,
   * and the short form is used exactly below one hour.
   */
  lemma FormatDurationRoundTrip(secs: nat)
    ensures ClockSeconds(FormatDuration(secs)) == Some(secs)
    ensures |FormatDuration(secs)| == 5 <==> secs < 3600
  {
    var (h, m, s) := ClockFields(secs);
    var mm, ss := Pad2(m), Pad2(s);
    var r := FormatDuration(secs);
    if h > 0 {
      var hh := NatToString(h);
      assert r == hh + ":" + mm + ":" + ss;
      DigitsValueOfNatToString(h);
      ClockSecondsLong(hh, mm, ss);
    } else {
      assert r == mm + ":" + ss;
      ClockSecondsShort(mm, ss);
    }
  }
}
