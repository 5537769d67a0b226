/**
 * Segmentation of a waveform and the frequency -> wavelength -> RGB mapping
 * (audio_processing.py). The spectral step (Hann window, real FFT, arg-max
 * bin) is the parameter `dominantFrequency`, and the base-10 logarithm is the
 * parameter `log10`; everything else follows the source.
 */
module AudioProcessing {
  import opened Wrappers
  import opened Colors
  import opened Arith

  // ---------------------------------------------------------------------
  // wavelength_to_rgb
  // ---------------------------------------------------------------------

  /** Relative channel intensities before attenuation, each in [0, 1]. */
  datatype Intensities = Intensities(r: real, g: real, b: real)

  /** The six linear bands of the visible range 380..780 nm. */
  function BandIntensities(w: real): (v: Intensities)
    requires 380.0 <= w <= 780.0
    ensures 0.0 <= v.r <= 1.0 && 0.0 <= v.g <= 1.0 && 0.0 <= v.b <= 1.0
    ensures v.r == 1.0 || v.g == 1.0 || v.b == 1.0
  {
    if w < 440.0 then Intensities(-(w - 440.0) / (440.0 - 380.0), 0.0, 1.0)
    else if w < 490.0 then Intensities(0.0, (w - 440.0) / (490.0 - 440.0), 1.0)
    else if w < 510.0 then Intensities(0.0, 1.0, -(w - 510.0) / (510.0 - 490.0))
    else if w < 580.0 then Intensities((w - 510.0) / (580.0 - 510.0), 1.0, 0.0)
    else if w < 645.0 then Intensities(1.0, -(w - 645.0) / (645.0 - 580.0), 0.0)
    else Intensities(1.0, 0.0, 0.0)
  }

  /** Intensity fall-off towards the violet and red ends. */
  function Attenuation(w: real): (f: real)
    requires 380.0 <= w <= 780.0
    ensures 0.3 <= f <= 1.0
    ensures 420.0 <= w <= 700.0 <==> f == 1.0
  {
    if w < 420.0 then 0.3 + 0.7 * (w - 380.0) / (420.0 - 380.0)
    else if w > 700.0 then 0.3 + 0.7 * (780.0 - w) / (780.0 - 700.0)
    else 1.0
  }

  /** Python's `int(max(0, min(255, x)))`: clamp to [0, 255], then truncate. */
  function ClampChannel(x: real): (c: Channel)
    ensures x <= 0.0 ==> c == 0
    ensures x >= 255.0 ==> c == 255
    ensures 0.0 <= x <= 255.0 ==> c as real <= x < c as real + 1.0
  {
    var y := if x > 255.0 then 255.0 else x;
    var z := if y < 0.0 then 0.0 else y;
    z.Floor
  }

  /** The source's `wavelength_to_rgb`, nested in `map_frequency_to_rgb`. */
  function WavelengthToRgb(w: real): (c: Rgb)
    ensures w < 380.0 || w > 780.0 ==> c == Black
  {
    if w < 380.0 || w > 780.0 then Black
    else
      var v := BandIntensities(w);
      var f := Attenuation(w);
      Rgb(ClampChannel(v.r * f * 255.0), ClampChannel(v.g * f * 255.0), ClampChannel(v.b * f * 255.0))
  }

  /** Inside 380..780 nm the clamp never bites: every scaled channel already lies in [0, 255]. */
  lemma ScaledChannelsInRange(w: real)
    requires 380.0 <= w <= 780.0
    ensures var v, f := BandIntensities(w), Attenuation(w);
      && 0.0 <= v.r * f * 255.0 <= 255.0
      && 0.0 <= v.g * f * 255.0 <= 255.0
      && 0.0 <= v.b * f * 255.0 <= 255.0
  {
    var v, f := BandIntensities(w), Attenuation(w);
    MulUnitBounds(v.r, f);
    MulUnitBounds(v.g, f);
    MulUnitBounds(v.b, f);
  }

  lemma MulUnitBounds(a: real, f: real)
    requires 0.0 <= a <= 1.0 && 0.0 <= f <= 1.0
    ensures 0.0 <= a * f * 255.0 <= 255.0
  {
    assert 0.0 <= a * f;
    assert a * f <= f;
  }

  /**
   * The band model is continuous: no channel intensity jumps at a band
   * boundary, and none changes faster than 1/20 per nanometre.
   */
  lemma IntensitiesContinuous(w1: real, w2: real)
    requires 380.0 <= w1 <= w2 <= 780.0
    ensures var v1, v2 := BandIntensities(w1), BandIntensities(w2);
      && -(w2 - w1) / 20.0 <= v2.r - v1.r <= (w2 - w1) / 20.0
      && -(w2 - w1) / 20.0 <= v2.g - v1.g <= (w2 - w1) / 20.0
      && -(w2 - w1) / 20.0 <= v2.b - v1.b <= (w2 - w1) / 20.0
  {
  }

  // ---------------------------------------------------------------------
  // map_frequency_to_rgb and map_frequencies_to_colors
  // ---------------------------------------------------------------------

  /** What the model asks of `log10`: it separates the two ends of the audible range. */
  predicate LogScaleValid(log10: real -> real) {
    log10(20.0) < log10(20000.0)
  }

  /** Python's `np.clip(t, 0, 1)`. */
  function Clip01(t: real): (c: real)
    ensures 0.0 <= c <= 1.0
    ensures 0.0 <= t <= 1.0 ==> c == t
  {
    if t < 0.0 then 0.0 else if t > 1.0 then 1.0 else t
  }

  /** Position of `freq` on the logarithmic 20 Hz .. 20 kHz scale, before clipping. */
  function AudiblePosition(freq: real, log10: real -> real): real
    requires LogScaleValid(log10)
  {
    var f := if freq > 1.0 then freq else 1.0;
    (log10(f) - log10(20.0)) / (log10(20000.0) - log10(20.0))
  }

  /** Wavelength in nm for a frequency: 700 (red) for low notes down to 400 (violet) for high ones. */
  function FrequencyWavelength(freq: real, log10: real -> real): (w: real)
    requires LogScaleValid(log10)
    ensures 400.0 <= w <= 700.0
  {
    700.0 - Clip01(AudiblePosition(freq, log10)) * (700.0 - 400.0)
  }

  function MapFrequencyToRgb(freq: real, log10: real -> real): (c: Rgb)
    requires LogScaleValid(log10)
    ensures c.r >= 165 || c.g >= 165 || c.b >= 165
  {
    var w := FrequencyWavelength(freq, log10);
    var c := WavelengthToRgb(w);
    BrightChannel(w);
    c
  }

  /** Between 400 and 700 nm some channel is at least 0.65 * 255, so the colour is never black. */
  lemma BrightChannel(w: real)
    requires 400.0 <= w <= 700.0
    ensures var c := WavelengthToRgb(w); c.r >= 165 || c.g >= 165 || c.b >= 165
  {
    var v, f := BandIntensities(w), Attenuation(w);
    assert f >= 0.65;
    ScaledChannelsInRange(w);
    var c := WavelengthToRgb(w);
    if v.r == 1.0 {
      assert v.r * f * 255.0 >= 165.0;
    } else if v.g == 1.0 {
      assert v.g * f * 255.0 >= 165.0;
    } else {
      assert v.b * f * 255.0 >= 165.0;
    }
  }

  /** Frequencies at or below 1 Hz (including 0 and negative ones) are treated as 1 Hz. */
  lemma FrequencyFloor(freq: real, log10: real -> real)
    requires LogScaleValid(log10)
    requires freq <= 1.0
    ensures MapFrequencyToRgb(freq, log10) == MapFrequencyToRgb(1.0, log10)
  {
  }

  /** With an increasing logarithm, a higher frequency never gets a longer wavelength. */
  lemma HigherFrequencyShorterWavelength(f1: real, f2: real, log10: real -> real)
    requires LogScaleValid(log10)
    requires forall x, y :: 0.0 < x <= y ==> log10(x) <= log10(y)
    requires f1 <= f2
    ensures FrequencyWavelength(f2, log10) <= FrequencyWavelength(f1, log10)
  {
    var a := if f1 > 1.0 then f1 else 1.0;
    var b := if f2 > 1.0 then f2 else 1.0;
    assert log10(a) <= log10(b);
    var d := log10(20000.0) - log10(20.0);
    DivMono(log10(a) - log10(20.0), log10(b) - log10(20.0), d);
  }

  lemma DivMono(x: real, y: real, d: real)
    requires x <= y && d > 0.0
    ensures x / d <= y / d
  {
    assert y / d - x / d == (y - x) / d;
  }

  /** The list comprehension `[map_frequency_to_rgb(f) for f in frequencies]`. */
  function MapFrequenciesToColors(freqs: seq<real>, log10: real -> real): (cs: seq<Rgb>)
    requires LogScaleValid(log10)
    ensures |cs| == |freqs|
    ensures forall i :: 0 <= i < |freqs| ==> cs[i] == MapFrequencyToRgb(freqs[i], log10)
  {
    seq(|freqs|, i requires 0 <= i < |freqs| => MapFrequencyToRgb(freqs[i], log10))
  }

  // ---------------------------------------------------------------------
  // Segmentation in process_audio
  // ---------------------------------------------------------------------

  /** Sample range [start, end) of segment `i` of `n`; the last one absorbs the remainder. */
  function SegmentBounds(total: nat, n: nat, i: nat): (se: (nat, nat))
    requires 0 <= i < n
    ensures se.0 <= se.1 <= total
  {
    var q := total / n;
    MulMono(i, n - 1, q);
    MulMono(n - 1, n, q);
    MulMono(i + 1, n - 1, q);
    (i * q, if i < n - 1 then (i + 1) * q else total)
  }

  /** The segments are contiguous and together cover [0, total). */
  lemma SegmentsTile(total: nat, n: nat)
    requires n > 0
    ensures SegmentBounds(total, n, 0).0 == 0
    ensures SegmentBounds(total, n, n - 1).1 == total
    ensures forall i :: 0 <= i < n - 1 ==> SegmentBounds(total, n, i).1 == SegmentBounds(total, n, i + 1).0
  {
  }

  /** Every segment but the last has exactly total / n samples. */
  lemma SegmentSizes(total: nat, n: nat, i: nat)
    requires 0 <= i < n
    ensures var (s, e) := SegmentBounds(total, n, i);
      e - s == if i < n - 1 then total / n else total - (n - 1) * (total / n)
  {
  }

  /** Length of segment `i`, in samples. */
  function SegmentLength(total: nat, n: nat, i: nat): nat
    requires 0 <= i < n
  {
    SegmentBounds(total, n, i).1 - SegmentBounds(total, n, i).0
  }

  /** Dominant frequencies of the segments among the first `k` that have at least two samples. */
  function KeptFrequencies(audio: seq<real>, n: nat, k: nat, dominantFrequency: seq<real> -> real): seq<real>
    requires k <= n
  {
    if k == 0 then []
    else
      var prev := KeptFrequencies(audio, n, k - 1, dominantFrequency);
      var (s, e) := SegmentBounds(|audio|, n, k - 1);
      if e - s < 2 then prev else prev + [dominantFrequency(audio[s..e])]
  }

  /** The colour list `process_audio` builds, one colour per kept segment in segment order. */
  function SegmentColors(audio: seq<real>, n: nat, dominantFrequency: seq<real> -> real, log10: real -> real): seq<Rgb>
    requires LogScaleValid(log10)
  {
    MapFrequenciesToColors(KeptFrequencies(audio, n, n, dominantFrequency), log10)
  }

  /**
   * process_audio. `audio` is None when the file cannot be read or decoded;
   * the source then catches the exception and returns None. `isFloat32` says
   * whether the decoded (and mono-mixed) samples already are float32; if not,
   * they are normalised, and the `audio_data.max()` that picks the divisor
   * raises ValueError on an empty waveform, which the handler turns into None.
   * A zero segment count raises ZeroDivisionError in
   * `total_length // num_segments`, which the same handler turns into None.
   */
  method ProcessAudio(audio: Option<seq<real>>, isFloat32: bool, numSegments: int,
                      dominantFrequency: seq<real> -> real, log10: real -> real)
    returns (colors: Option<seq<Rgb>>)
    requires LogScaleValid(log10)
    ensures colors.None? <==> audio.None? || (!isFloat32 && audio.value == []) || numSegments == 0
    ensures colors.Some? && numSegments < 0 ==> colors == Some([])
    ensures colors.Some? && numSegments > 0 ==>
      colors == Some(SegmentColors(audio.value, numSegments, dominantFrequency, log10))
  {
    if audio.None? {
      return None;
    }
    var data := audio.value;
    if !isFloat32 && data == [] {
      // `audio_data.max()` of an empty array.
      return None;
    }
    var total := |data|;
    if numSegments == 0 {
      return None;
    }
    if numSegments < 0 {
      // `range(num_segments)` is empty.
      return Some([]);
    }
    var segmentSamples := total / numSegments;
    var result: seq<Rgb> := [];
    var i := 0;
    while i < numSegments
      invariant 0 <= i <= numSegments
      invariant result == MapFrequenciesToColors(KeptFrequencies(data, numSegments, i, dominantFrequency), log10)
    {
      var start := i * segmentSamples;
      var end := if i < numSegments - 1 then (i + 1) * segmentSamples else total;
      assert (start, end) == SegmentBounds(total, numSegments, i);
      if end - start >= 2 {
        var rgb := MapFrequencyToRgb(dominantFrequency(data[start..end]), log10);
        result := result + [rgb];
      }
      i := i + 1;
    }
    return Some(result);
  }

  // ---------------------------------------------------------------------
  // Properties of the segmentation
  // ---------------------------------------------------------------------

  /** One frequency per segment of at least two samples, so never more than the segment count. */
  lemma {:induction false} KeptAtMost(audio: seq<real>, n: nat, k: nat, dominantFrequency: seq<real> -> real)
    requires k <= n
    ensures |KeptFrequencies(audio, n, k, dominantFrequency)| <= k
  {
    if k > 0 {
      KeptAtMost(audio, n, k - 1, dominantFrequency);
    }
  }

  /** When every segment has at least two samples, frequency i belongs to segment i. */
  lemma {:induction false} AllSegmentsKept(audio: seq<real>, n: nat, k: nat, dominantFrequency: seq<real> -> real)
    requires 0 < n && k <= n
    requires |audio| >= 2 * n
    ensures var fs := KeptFrequencies(audio, n, k, dominantFrequency);
      && |fs| == k
      && forall i :: 0 <= i < k ==>
           var (s, e) := SegmentBounds(|audio|, n, i); fs[i] == dominantFrequency(audio[s..e])
  {
    if k > 0 {
      AllSegmentsKept(audio, n, k - 1, dominantFrequency);
      SegmentLongEnough(|audio|, n, k - 1);
    }
  }

  /** At least 2n samples give every segment at least two. */
  lemma SegmentLongEnough(total: nat, n: nat, i: nat)
    requires 0 <= i < n && total >= 2 * n
    ensures SegmentLength(total, n, i) >= 2
  {
    var q := total / n;
    DivAtLeast(total, n, 2);
    var (s, e) := SegmentBounds(total, n, i);
    assert s == i * q;
    if i < n - 1 {
      assert e == (i + 1) * q == i * q + q;
    } else {
      assert total == q * n + total % n;
      assert (n - 1) * q + q == n * q <= total;
      assert e - s == total - (n - 1) * q >= q;
    }
  }

  lemma DivAtLeast(total: nat, n: nat, m: nat)
    requires n > 0 && total >= m * n
    ensures total / n >= m
  {
    var q := total / n;
    assert total == q * n + total % n;
    if q < m {
      MulMono(q + 1, m, n);
      assert false;
    }
  }

  /** With at least two samples per segment, no segment is skipped: one colour per segment, in order. */
  lemma LongAudioOneColorPerSegment(audio: seq<real>, n: nat, dominantFrequency: seq<real> -> real, log10: real -> real)
    requires LogScaleValid(log10)
    requires 0 < n && |audio| >= 2 * n
    ensures var cs := SegmentColors(audio, n, dominantFrequency, log10);
      && |cs| == n
      && forall i :: 0 <= i < n ==>
           var (s, e) := SegmentBounds(|audio|, n, i);
           cs[i] == MapFrequencyToRgb(dominantFrequency(audio[s..e]), log10)
  {
    AllSegmentsKept(audio, n, n, dominantFrequency);
  }

  /** Below two samples per segment, all segments but the last are too short: at most one colour. */
  lemma {:induction false} ShortSegmentsSkipped(audio: seq<real>, n: nat, k: nat, dominantFrequency: seq<real> -> real)
    requires 0 < n && k <= n && |audio| < 2 * n
    ensures k < n ==> KeptFrequencies(audio, n, k, dominantFrequency) == []
    ensures k == n ==> |KeptFrequencies(audio, n, k, dominantFrequency)| <= 1
  {
    if k > 0 {
      ShortSegmentsSkipped(audio, n, k - 1, dominantFrequency);
      DivBelow(|audio|, n, 2);
      if k < n {
        SegmentSizes(|audio|, n, k - 1);
      }
    }
  }

  lemma DivBelow(total: nat, n: nat, m: nat)
    requires n > 0 && total < m * n
    ensures total / n < m
  {
    var q := total / n;
    assert total == q * n + total % n;
    if q >= m {
      MulMono(m, q, n);
      assert false;
    }
  }

  /** An empty float32 waveform passes normalisation but every segment is empty: no colour at all. */
  lemma {:induction false} EmptyAudioNoColors(n: nat, k: nat, dominantFrequency: seq<real> -> real)
    requires k <= n
    ensures KeptFrequencies([], n, k, dominantFrequency) == []
  {
    if k > 0 {
      EmptyAudioNoColors(n, k - 1, dominantFrequency);
      assert SegmentBounds(0, n, k - 1) == (0, 0);
    }
  }

  /** Fewer than two samples per segment yields at most one colour, from the last segment. */
  lemma ShortAudioAtMostOneColor(audio: seq<real>, n: nat, dominantFrequency: seq<real> -> real, log10: real -> real)
    requires LogScaleValid(log10)
    requires 0 < n && |audio| < 2 * n
    ensures |SegmentColors(audio, n, dominantFrequency, log10)| <= 1
  {
    ShortSegmentsSkipped(audio, n, n, dominantFrequency);
  }

  /** One sample per segment (e.g. 1000 samples in 1000 segments): every segment is skipped. */
  lemma OneSamplePerSegmentYieldsNothing(audio: seq<real>, n: nat, dominantFrequency: seq<real> -> real, log10: real -> real)
    requires LogScaleValid(log10)
    requires 0 < n && |audio| == n
    ensures SegmentColors(audio, n, dominantFrequency, log10) == []
  {
    ShortSegmentsSkipped(audio, n, n - 1, dominantFrequency);
    assert |audio| / n == 1;
  }
}
