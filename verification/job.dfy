/**
 * A transcode job and the ffmpeg command line it compiles to.
 *
 * The command line is specified block by block by pure functions
 * (`HwaccelArgs`, `VideoArgs`, `AudioArgs`, ...); the `TranscodeJob`
 * methods build it the way the program does, extending the argument list
 * block by block, and each is proved to append exactly its block. The encoder
 * and acceleration kind actually used are inputs: choosing them probes
 * the installed ffmpeg and is modelled in `HwAccel`.
 */
module Job {
  import opened Wrappers
  import opened Ints
  import opened Seqs
  import opened Text
  import opened Paths
  import opened Accel
  import opened Preset

  datatype JobState = Pending | Running | Completed | Failed(message: string) | Cancelled

  // ---------------------------------------------------------------------
  // Tokens
  // ---------------------------------------------------------------------

  /** A value token: never empty, never starts with a dash. */
  predicate IsValue(t: string)
  {
    t != [] && t[0] != '-'
  }

  /** `n.to_string()` as an argument. */
  function Num(n: nat): (r: string)
    ensures IsValue(r) && IsDigit(r[0])
  {
    NatToString(n)
  }

  /** `format!("{}k", n)`: a bitrate in kbit/s. */
  function Kbps(n: nat): (r: string)
    ensures IsValue(r) && r[|r| - 1] == 'k'
  {
    Num(n) + "k"
  }

  /**
   * `format!("{:.1}", n as f32 / 10.0)` for a `u8` strength `n`: the
   * exact one-decimal rendering of n/10.
   */
  function Tenths(n: nat): (r: string)
    ensures IsValue(r) && |r| >= 3
  {
    Num(n / 10) + "." + [DigitChar(n % 10)]
  }

  /** Deleting the point from `Tenths(n)` leaves the decimal digits of `n`. */
  lemma TenthsDenotes(n: nat)
    ensures var t := Tenths(n);
      t[|t| - 2] == '.' && AllDigits(t[..|t| - 2] + t[|t| - 1..])
      && DigitsValue(t[..|t| - 2] + t[|t| - 1..]) == n
  {
    var t := Tenths(n);
    var q := Num(n / 10);
    assert t[..|t| - 2] == q;
    assert t[|t| - 1..] == [DigitChar(n % 10)];
    var d := q + [DigitChar(n % 10)];
    assert d[..|d| - 1] == q;
    DigitsValueOfNatToString(n / 10);
  }

  /** `format!("scale={}:{}", w, h)`. */
  function ScaleFilter(w: nat, h: nat): (r: string)
    ensures IsValue(r)
  {
    "scale=" + Num(w) + ":" + Num(h)
  }

  /** The flags whose place in the command line is fixed by the layout. */
  predicate IsLayoutFlag(t: string)
  {
    t in {"-hwaccel", "-i", "-c:v", "-vf", "-g", "-c:a", "-b:a", "-progress", "-stats_period", "-y"}
  }

  /**
   * A coarser test that every layout flag passes: a dash, then the length
   * and the one or two characters that single each layout flag out among
   * the option flags the encoder blocks use.
   */
  predicate LayoutShaped(t: string)
  {
    |t| >= 2 && t[0] == '-'
    && ((|t| == 2 && (t[1] == 'i' || t[1] == 'g' || t[1] == 'y'))
        || (|t| == 3 && t[1] == 'v')
        || (|t| == 4 && ((t[1] == 'c' && t[2] == ':') || (t[1] == 'b' && t[3] == 'a')))
        || (|t| == 8 && t[1] == 'h')
        || (|t| == 9 && t[1] == 'p')
        || (|t| == 13 && t[1] == 's'))
  }

  lemma LayoutFlagIsShaped(t: string)
    requires IsLayoutFlag(t)
    ensures LayoutShaped(t)
  {
  }

  /** No token of `r` is, or even looks like, a layout flag. */
  predicate NoLayoutFlag(r: seq<string>)
  {
    forall i | 0 <= i < |r| :: !LayoutShaped(r[i])
  }

  lemma NoLayoutFlagConcat(a: seq<string>, b: seq<string>)
    requires NoLayoutFlag(a) && NoLayoutFlag(b)
    ensures NoLayoutFlag(a + b)
  {
    forall i | 0 <= i < |a + b|
      ensures !LayoutShaped((a + b)[i])
    {
      if i < |a| {
        assert (a + b)[i] == a[i];
      } else {
        assert (a + b)[i] == b[i - |a|];
      }
    }
  }

  /** A block free of layout flags holds none of them. */
  lemma NoLayoutFlagHasNone(r: seq<string>, t: string)
    requires NoLayoutFlag(r) && IsLayoutFlag(t)
    ensures t !in r
    ensures CountOf(r, t) == 0
  {
    LayoutFlagIsShaped(t);
  }

  // Option/value blocks, optional or not, that the encoder blocks are made of.

  lemma OptionFree(f1: string, v1: string)
    requires !LayoutShaped(f1) && IsValue(v1)
    ensures NoLayoutFlag([f1, v1])
  {
  }

  lemma OptionsFree(f1: string, v1: string, f2: string, v2: string)
    requires !LayoutShaped(f1) && IsValue(v1) && !LayoutShaped(f2) && IsValue(v2)
    ensures NoLayoutFlag([f1, v1, f2, v2])
  {
  }

  lemma OptionalFree(c: bool, f1: string, v1: string)
    requires !LayoutShaped(f1) && IsValue(v1)
    ensures NoLayoutFlag(if c then [f1, v1] else [])
  {
  }

  lemma OptionalsFree(c: bool, f1: string, v1: string, f2: string, v2: string)
    requires !LayoutShaped(f1) && IsValue(v1) && !LayoutShaped(f2) && IsValue(v2)
    ensures NoLayoutFlag(if c then [f1, v1, f2, v2] else [])
  {
  }

  // ---------------------------------------------------------------------
  // Blocks of the command line
  // ---------------------------------------------------------------------

  /** The decoder-side acceleration context, given before `-i`. */
  function HwaccelArgs(h: HwAccelType): (r: seq<string>)
    ensures r != [] <==> IsVendor(h)
    ensures r != [] ==> |r| == 2 && r[0] == "-hwaccel" && IsValue(r[1])
    ensures h == Nvenc ==> r == ["-hwaccel", "cuda"]
    ensures h == Qsv ==> r == ["-hwaccel", "qsv"]
    ensures h == Amf ==> r == ["-hwaccel", "d3d11va"]
  {
    match h
    case Nvenc => ["-hwaccel", "cuda"]
    case Qsv => ["-hwaccel", "qsv"]
    case Amf => ["-hwaccel", "d3d11va"]
    case _ => []
  }

  /** The scale filter: none for the original size. */
  function ScaleArgs(res: VideoResolution): seq<string>
  {
    if res.Custom? then ["-vf", ScaleFilter(res.width, res.height)]
    else if res != Original then
      var d := Dimensions(res);
      ["-vf", ScaleFilter(d.0, d.1)]
    else []
  }

  /** The two branches of the scale rule agree with `Dimensions`. */
  lemma ScaleArgsByDimensions(res: VideoResolution)
    ensures ScaleArgs(res) == if res == Original then [] else ["-vf", ScaleFilter(Dimensions(res).0, Dimensions(res).1)]
  {
  }

  /** The generic rate-control block; vendor encoders take `-cq` for CRF. */
  function RateControlArgs(s: TranscodeSettings, h: HwAccelType): (r: seq<string>)
    requires s.rateControl == Cbr ==> 2 * s.targetBitrate < U32_LIMIT
  {
    match s.rateControl
    case Crf => [if IsVendor(h) then "-cq" else "-crf", Num(s.crf)]
    case Cbr =>
      ["-b:v", Kbps(s.targetBitrate), "-maxrate", Kbps(s.targetBitrate), "-bufsize", Kbps(2 * s.targetBitrate)]
    case Vbr =>
      ["-b:v", Kbps(s.targetBitrate), "-maxrate", Kbps(s.maxBitrate), "-bufsize", Kbps(s.maxBitrate)]
    case Cqp => ["-qp", Num(s.crf)]
  }

  function NvencPreset(p: VideoPreset): (r: string)
    ensures IsValue(r)
  {
    match p
    case Ultrafast => "p1"
    case Fast => "p3"
    case Medium => "p4"
    case Slow => "p6"
    case Veryslow => "p7"
  }

  function NvencRateControl(s: TranscodeSettings): seq<string>
  {
    match s.rateControl
    case Crf => ["-rc", "vbr", "-cq", Num(s.crf)]
    case Cbr => ["-rc", "cbr", "-b:v", Kbps(s.targetBitrate)]
    case Vbr => ["-rc", "vbr", "-b:v", Kbps(s.targetBitrate), "-maxrate", Kbps(s.maxBitrate)]
    case Cqp => ["-rc", "constqp", "-qp", Num(s.crf)]
  }

  function NvencArgs(s: TranscodeSettings): seq<string>
  {
    ["-tune", NvencTuneValue(s.nvencTune)]
    + NvencRateControl(s)
    + ["-preset", NvencPreset(s.preset), "-multipass", NvencMultipassValue(s.nvencMultipass)]
    + (if s.bframes > 0 then ["-bf", Num(s.bframes), "-b_ref_mode", NvencBRefModeValue(s.nvencBRefMode)] else [])
    + (if s.lookahead > 0 then ["-rc-lookahead", Num(s.lookahead)] else [])
    + (if s.aqMode != AqMode.None then ["-spatial-aq", "1", "-aq-strength", Num(s.aqStrength)] else [])
  }

  function QsvPreset(p: VideoPreset): (r: string)
    ensures IsValue(r)
  {
    match p
    case Ultrafast => "veryfast"
    case Fast => "faster"
    case Medium => "medium"
    case Slow => "slower"
    case Veryslow => "veryslow"
  }

  function QsvRateControl(s: TranscodeSettings): seq<string>
  {
    match s.rateControl
    case Crf => ["-global_quality", Num(s.crf)]
    case Cbr => ["-b:v", Kbps(s.targetBitrate), "-maxrate", Kbps(s.targetBitrate)]
    case Vbr => ["-b:v", Kbps(s.targetBitrate), "-maxrate", Kbps(s.maxBitrate)]
    case Cqp => ["-q", Num(s.crf)]
  }

  function QsvArgs(s: TranscodeSettings): seq<string>
  {
    QsvRateControl(s)
    + ["-preset", QsvPreset(s.preset)]
    + (if s.qsvLaDepth > 0 then ["-look_ahead", "1", "-look_ahead_depth", Num(s.qsvLaDepth)] else [])
    + (if s.qsvAdaptiveI then ["-adaptive_i", "1"] else [])
    + (if s.qsvAdaptiveB then ["-adaptive_b", "1"] else [])
    + (if s.bframes > 0 then ["-bf", Num(s.bframes)] else [])
    + (if s.refFrames > 0 then ["-refs", Num(s.refFrames)] else [])
  }

  function AmfRateControl(s: TranscodeSettings): seq<string>
    requires s.rateControl == Crf ==> s.crf + 2 < U8_LIMIT
  {
    match s.rateControl
    case Crf => ["-rc", "cqp", "-qp_i", Num(s.crf), "-qp_p", Num(s.crf), "-qp_b", Num(s.crf + 2)]
    case Cbr => ["-rc", "cbr", "-b:v", Kbps(s.targetBitrate)]
    case Vbr => ["-rc", "vbr_peak", "-b:v", Kbps(s.targetBitrate), "-maxrate", Kbps(s.maxBitrate)]
    case Cqp => ["-rc", "cqp", "-qp_i", Num(s.crf), "-qp_p", Num(s.crf)]
  }

  function AmfArgs(s: TranscodeSettings): (r: seq<string>)
    requires s.rateControl == Crf ==> s.crf + 2 < U8_LIMIT
  {
    ["-usage", AmfUsageValue(s.amfUsage), "-quality", AmfQualityValue(s.amfQuality)]
    + AmfRateControl(s)
    + (if s.bframes > 0 then ["-bf", Num(s.bframes)] else [])
  }

  function X264TuneArgs(s: TranscodeSettings): seq<string>
  {
    match X264TuneValue(s.x264Tune)
    case Some(t) => ["-tune", t]
    case None => []
  }

  function X264Args(s: TranscodeSettings): (r: seq<string>)
    requires s.rateControl == Cbr ==> 2 * s.targetBitrate < U32_LIMIT
  {
    ["-profile:v", X264ProfileValue(s.x264Profile)]
    + RateControlArgs(s, Software)
    + ["-preset", PresetName(s.preset)]
    + X264TuneArgs(s)
    + (if s.bframes > 0 then ["-bf", Num(s.bframes)] else [])
    + (if s.refFrames > 0 then ["-refs", Num(s.refFrames)] else [])
    + (if s.aqMode != AqMode.None then ["-aq-mode", Num(AqModeValue(s.aqMode)), "-aq-strength", Tenths(s.aqStrength)] else [])
    + (if s.lookahead > 0 then ["-rc-lookahead", Num(s.lookahead)] else [])
  }

  /** The x264 tunings x265 also accepts. */
  predicate X265AcceptsTune(t: string)
  {
    t in {"grain", "animation", "zerolatency", "fastdecode", "psnr", "ssim"}
  }

  function X265TuneArgs(s: TranscodeSettings): seq<string>
  {
    match X264TuneValue(s.x264Tune)
    case Some(t) => if X265AcceptsTune(t) then ["-tune", t] else []
    case None => []
  }

  /** The `key=value` items passed through `-x265-params`, in order. */
  function X265Params(s: TranscodeSettings): seq<string>
  {
    (if s.bframes > 0 then ["bframes=" + Num(s.bframes)] else [])
    + (if s.refFrames > 0 then ["ref=" + Num(s.refFrames)] else [])
    + (if s.aqMode != AqMode.None
       then ["aq-mode=" + Num(AqModeValue(s.aqMode)), "aq-strength=" + Tenths(s.aqStrength)] else [])
    + (if s.lookahead > 0 then ["rc-lookahead=" + Num(s.lookahead)] else [])
  }

  function X265ParamsArgs(s: TranscodeSettings): seq<string>
  {
    if X265Params(s) != [] then ["-x265-params", Join(X265Params(s), ":")] else []
  }

  /**
   * `-x265-params` is passed exactly when B-frames, reference frames, AQ
   * or lookahead is set; each set option contributes its items.
   */
  lemma X265ParamsPresence(s: TranscodeSettings)
    ensures X265Params(s) != [] <==> s.bframes > 0 || s.refFrames > 0 || s.aqMode != AqMode.None || s.lookahead > 0
    ensures |X265Params(s)| == (if s.bframes > 0 then 1 else 0) + (if s.refFrames > 0 then 1 else 0)
                              + (if s.aqMode != AqMode.None then 2 else 0) + (if s.lookahead > 0 then 1 else 0)
    ensures (X265ParamsArgs(s) != []) == (X265Params(s) != [])
  {
  }

  function X265Args(s: TranscodeSettings): (r: seq<string>)
    requires s.rateControl == Cbr ==> 2 * s.targetBitrate < U32_LIMIT
  {
    RateControlArgs(s, Software)
    + ["-preset", PresetName(s.preset)]
    + X265TuneArgs(s)
    + X265ParamsArgs(s)
  }

  function Vp9CpuUsed(p: VideoPreset): (r: string)
    ensures IsValue(r)
  {
    match p
    case Ultrafast => "8"
    case Fast => "6"
    case Medium => "4"
    case Slow => "2"
    case Veryslow => "0"
  }

  function Vp9RateControl(s: TranscodeSettings): seq<string>
  {
    match s.rateControl
    case Crf => ["-b:v", "0", "-crf", Num(s.crf)]
    case Cqp => ["-b:v", "0", "-crf", Num(s.crf)]
    case Cbr => ["-b:v", Kbps(s.targetBitrate), "-minrate", Kbps(s.targetBitrate), "-maxrate", Kbps(s.targetBitrate)]
    case Vbr => ["-b:v", Kbps(s.targetBitrate), "-maxrate", Kbps(s.maxBitrate)]
  }

  function Vp9AltRef(s: TranscodeSettings): seq<string>
  {
    if s.vp9AutoAltRef
    then ["-auto-alt-ref", "1"] + (if s.vp9LagInFrames > 0 then ["-lag-in-frames", Num(s.vp9LagInFrames)] else [])
    else []
  }

  function Vp9Args(s: TranscodeSettings): seq<string>
  {
    Vp9RateControl(s)
    + ["-cpu-used", Vp9CpuUsed(s.preset), "-deadline", "good", "-row-mt", "1"]
    + (if s.vp9TileColumns > 0 then ["-tile-columns", Num(s.vp9TileColumns)] else [])
    + (if s.vp9TileRows > 0 then ["-tile-rows", Num(s.vp9TileRows)] else [])
    + (if s.vp9FrameParallel then ["-frame-parallel", "1"] else [])
    + Vp9AltRef(s)
  }

  function LibaomCpuUsed(p: VideoPreset): (r: string)
    ensures IsValue(r)
  {
    match p
    case Ultrafast => "8"
    case Fast => "6"
    case Medium => "4"
    case Slow => "2"
    case Veryslow => "1"
  }

  function LibaomRateControl(s: TranscodeSettings): seq<string>
  {
    match s.rateControl
    case Crf => ["-crf", Num(s.crf)]
    case Cqp => ["-crf", Num(s.crf)]
    case Cbr => ["-b:v", Kbps(s.targetBitrate)]
    case Vbr => ["-b:v", Kbps(s.targetBitrate), "-maxrate", Kbps(s.maxBitrate)]
  }

  function LibaomAv1Args(s: TranscodeSettings): seq<string>
  {
    LibaomRateControl(s)
    + ["-cpu-used", LibaomCpuUsed(s.preset), "-row-mt", "1"]
    + ["-tiles", Num(s.av1TileColumns) + "x" + Num(s.av1TileRows)]
  }

  function SvtAv1Preset(p: VideoPreset): (r: string)
    ensures IsValue(r)
  {
    match p
    case Ultrafast => "12"
    case Fast => "10"
    case Medium => "8"
    case Slow => "5"
    case Veryslow => "2"
  }

  function SvtAv1RateControl(s: TranscodeSettings): seq<string>
  {
    match s.rateControl
    case Crf => ["-crf", Num(s.crf)]
    case Cqp => ["-crf", Num(s.crf)]
    case Cbr => ["-b:v", Kbps(s.targetBitrate), "-rc", "1"]
    case Vbr => ["-b:v", Kbps(s.targetBitrate), "-maxrate", Kbps(s.maxBitrate)]
  }

  /** `film-grain=N`, with `:film-grain-denoise=1` appended when asked. */
  function FilmGrainParams(s: TranscodeSettings): string
  {
    "film-grain=" + Num(s.svtav1FilmGrain) + (if s.svtav1FilmGrainDenoise then ":film-grain-denoise=1" else "")
  }

  function SvtAv1Args(s: TranscodeSettings): seq<string>
  {
    SvtAv1RateControl(s)
    + ["-preset", SvtAv1Preset(s.preset)]
    + (if s.svtav1FilmGrain > 0 then ["-svtav1-params", FilmGrainParams(s)] else [])
    + (if s.av1TileColumns > 0 || s.av1TileRows > 0
       then ["-tile_columns", Num(s.av1TileColumns), "-tile_rows", Num(s.av1TileRows)]
       else [])
  }

  /** The block for an encoder with no options of its own. */
  function GenericArgs(s: TranscodeSettings, h: HwAccelType): seq<string>
    requires s.rateControl == Cbr ==> 2 * s.targetBitrate < U32_LIMIT
  {
    RateControlArgs(s, h) + ["-preset", PresetName(s.preset)]
  }

  /** Which option block an encoder name selects. */
  datatype Family = NvencFamily | QsvFamily | AmfFamily | X264Family | X265Family
                  | Vp9Family | LibaomFamily | SvtAv1Family | GenericFamily

  function FamilyOf(encoder: string): Family
  {
    if encoder in {"h264_nvenc", "hevc_nvenc", "av1_nvenc"} then NvencFamily
    else if encoder in {"h264_qsv", "hevc_qsv", "av1_qsv", "vp9_qsv"} then QsvFamily
    else if encoder in {"h264_amf", "hevc_amf", "av1_amf"} then AmfFamily
    else if encoder == "libx264" then X264Family
    else if encoder == "libx265" then X265Family
    else if encoder == "libvpx-vp9" then Vp9Family
    else if encoder == "libaom-av1" then LibaomFamily
    else if encoder == "libsvtav1" then SvtAv1Family
    else GenericFamily
  }

  /** Every encoder the settings can name has its own option block. */
  lemma NamedEncodersHaveFamilies(c: VideoCodec, h: HwAccelType)
    ensures FamilyOf(EncoderName(c, h)) != GenericFamily
    ensures FamilyOf(EncoderName(c, h)) == NvencFamily <==> h == Nvenc && c != Vp9
    ensures FamilyOf(EncoderName(c, h)) == QsvFamily <==> h == Qsv
    ensures FamilyOf(EncoderName(c, h)) == AmfFamily <==> h == Amf && c != Vp9
  {
  }

  /** What the source's integer arithmetic needs to stay in range. */
  predicate ArgsDefined(s: TranscodeSettings, encoder: string)
  {
    (FamilyOf(encoder) == AmfFamily && s.rateControl == Crf ==> s.crf + 2 < U8_LIMIT)
    && (FamilyOf(encoder) in {X264Family, X265Family, GenericFamily} && s.rateControl == Cbr
        ==> 2 * s.targetBitrate < U32_LIMIT)
  }

  /** The encoder-specific block, chosen by the encoder's name. */
  function EncoderOptionArgs(s: TranscodeSettings, encoder: string, h: HwAccelType): (r: seq<string>)
    requires ArgsDefined(s, encoder)
  {
    match FamilyOf(encoder)
    case NvencFamily => NvencArgs(s)
    case QsvFamily => QsvArgs(s)
    case AmfFamily => AmfArgs(s)
    case X264Family => X264Args(s)
    case X265Family => X265Args(s)
    case Vp9Family => Vp9Args(s)
    case LibaomFamily => LibaomAv1Args(s)
    case SvtAv1Family => SvtAv1Args(s)
    case GenericFamily => GenericArgs(s, h)
  }

  function GopArgs(gop: nat): seq<string>
  {
    if gop > 0 then ["-g", Num(gop)] else []
  }

  /** The whole video block. */
  function VideoArgs(s: TranscodeSettings, encoder: string, h: HwAccelType): (r: seq<string>)
    requires ArgsDefined(s, encoder)
    ensures |r| >= 2 && r[0] == "-c:v" && r[1] == encoder
  {
    ["-c:v", encoder] + ScaleArgs(s.resolution) + EncoderOptionArgs(s, encoder, h) + GopArgs(s.gopSize)
  }

  /** The audio block. */
  function AudioArgs(s: TranscodeSettings): seq<string>
  {
    match s.audioCodec
    case Copy => ["-c:a", "copy"]
    case Aac => ["-c:a", "aac", "-b:a", Kbps(s.audioBitrate)]
    case Mp3 => ["-c:a", "libmp3lame", "-b:a", Kbps(s.audioBitrate)]
    case Flac => ["-c:a", "flac"]
  }

  /** Progress on stdout every half second, overwrite, then the output. */
  function TailArgs(output: string): seq<string>
  {
    ["-progress", "pipe:1", "-stats_period", "0.5", "-y", output]
  }

  /** The complete ffmpeg argument list. */
  function FfmpegArgs(s: TranscodeSettings, input: string, output: string, encoder: string, h: HwAccelType): seq<string>
    requires ArgsDefined(s, encoder)
  {
    HwaccelArgs(h) + ["-i", input] + VideoArgs(s, encoder, h) + AudioArgs(s) + TailArgs(output)
  }

  // ---------------------------------------------------------------------
  // No encoder block emits a layout flag
  // ---------------------------------------------------------------------

  lemma RateControlFree(s: TranscodeSettings, h: HwAccelType)
    requires s.rateControl == Cbr ==> 2 * s.targetBitrate < U32_LIMIT
    ensures NoLayoutFlag(RateControlArgs(s, h))
  {
  }

  lemma NvencRateControlFree(s: TranscodeSettings)
    ensures NoLayoutFlag(NvencRateControl(s))
  {
  }

  lemma QsvRateControlFree(s: TranscodeSettings)
    ensures NoLayoutFlag(QsvRateControl(s))
  {
  }

  lemma AmfRateControlFree(s: TranscodeSettings)
    requires s.rateControl == Crf ==> s.crf + 2 < U8_LIMIT
    ensures NoLayoutFlag(AmfRateControl(s))
  {
  }

  lemma Vp9RateControlFree(s: TranscodeSettings)
    ensures NoLayoutFlag(Vp9RateControl(s))
  {
  }

  lemma LibaomRateControlFree(s: TranscodeSettings)
    ensures NoLayoutFlag(LibaomRateControl(s))
  {
  }

  lemma SvtAv1RateControlFree(s: TranscodeSettings)
    ensures NoLayoutFlag(SvtAv1RateControl(s))
  {
  }

  /** The optional NVENC options keep a layout-free prefix layout-free. */
  lemma NvencOptionalsFree(s: TranscodeSettings, p: seq<string>)
    requires NoLayoutFlag(p)
    ensures NoLayoutFlag(p
      + (if s.bframes > 0 then ["-bf", Num(s.bframes), "-b_ref_mode", NvencBRefModeValue(s.nvencBRefMode)] else [])
      + (if s.lookahead > 0 then ["-rc-lookahead", Num(s.lookahead)] else [])
      + (if s.aqMode != AqMode.None then ["-spatial-aq", "1", "-aq-strength", Num(s.aqStrength)] else []))
  {
    var d := if s.bframes > 0 then ["-bf", Num(s.bframes), "-b_ref_mode", NvencBRefModeValue(s.nvencBRefMode)] else [];
    OptionalsFree(s.bframes > 0, "-bf", Num(s.bframes), "-b_ref_mode", NvencBRefModeValue(s.nvencBRefMode));
    var e := if s.lookahead > 0 then ["-rc-lookahead", Num(s.lookahead)] else [];
    OptionalFree(s.lookahead > 0, "-rc-lookahead", Num(s.lookahead));
    var f := if s.aqMode != AqMode.None then ["-spatial-aq", "1", "-aq-strength", Num(s.aqStrength)] else [];
    OptionalsFree(s.aqMode != AqMode.None, "-spatial-aq", "1", "-aq-strength", Num(s.aqStrength));
    NoLayoutFlagConcat(p, d);
    NoLayoutFlagConcat(p + d, e);
    NoLayoutFlagConcat(p + d + e, f);
  }

  lemma NvencArgsFree(s: TranscodeSettings)
    ensures NoLayoutFlag(NvencArgs(s))
  {
    var a := ["-tune", NvencTuneValue(s.nvencTune)];
    OptionFree("-tune", NvencTuneValue(s.nvencTune));
    var b := NvencRateControl(s);
    NvencRateControlFree(s);
    var c := ["-preset", NvencPreset(s.preset), "-multipass", NvencMultipassValue(s.nvencMultipass)];
    OptionsFree("-preset", NvencPreset(s.preset), "-multipass", NvencMultipassValue(s.nvencMultipass));
    NoLayoutFlagConcat(a, b);
    NoLayoutFlagConcat(a + b, c);
    NvencOptionalsFree(s, a + b + c);
  }

  lemma QsvArgsFree(s: TranscodeSettings)
    ensures NoLayoutFlag(QsvArgs(s))
  {
    var a := QsvRateControl(s);
    QsvRateControlFree(s);
    var b := ["-preset", QsvPreset(s.preset)];
    OptionFree("-preset", QsvPreset(s.preset));
    var c := if s.qsvLaDepth > 0 then ["-look_ahead", "1", "-look_ahead_depth", Num(s.qsvLaDepth)] else [];
    OptionalsFree(s.qsvLaDepth > 0, "-look_ahead", "1", "-look_ahead_depth", Num(s.qsvLaDepth));
    var d := if s.qsvAdaptiveI then ["-adaptive_i", "1"] else [];
    OptionalFree(s.qsvAdaptiveI, "-adaptive_i", "1");
    var e := if s.qsvAdaptiveB then ["-adaptive_b", "1"] else [];
    OptionalFree(s.qsvAdaptiveB, "-adaptive_b", "1");
    var f := if s.bframes > 0 then ["-bf", Num(s.bframes)] else [];
    OptionalFree(s.bframes > 0, "-bf", Num(s.bframes));
    var g := if s.refFrames > 0 then ["-refs", Num(s.refFrames)] else [];
    OptionalFree(s.refFrames > 0, "-refs", Num(s.refFrames));
    NoLayoutFlagConcat(a, b);
    NoLayoutFlagConcat(a + b, c);
    NoLayoutFlagConcat(a + b + c, d);
    NoLayoutFlagConcat(a + b + c + d, e);
    NoLayoutFlagConcat(a + b + c + d + e, f);
    NoLayoutFlagConcat(a + b + c + d + e + f, g);
  }

  lemma AmfArgsFree(s: TranscodeSettings)
    requires s.rateControl == Crf ==> s.crf + 2 < U8_LIMIT
    ensures NoLayoutFlag(AmfArgs(s))
  {
    var a := ["-usage", AmfUsageValue(s.amfUsage), "-quality", AmfQualityValue(s.amfQuality)];
    OptionsFree("-usage", AmfUsageValue(s.amfUsage), "-quality", AmfQualityValue(s.amfQuality));
    var b := AmfRateControl(s);
    AmfRateControlFree(s);
    var c := if s.bframes > 0 then ["-bf", Num(s.bframes)] else [];
    OptionalFree(s.bframes > 0, "-bf", Num(s.bframes));
    NoLayoutFlagConcat(a, b);
    NoLayoutFlagConcat(a + b, c);
  }

  /** The optional x264 options keep a layout-free prefix layout-free. */
  lemma X264OptionalsFree(s: TranscodeSettings, p: seq<string>)
    requires NoLayoutFlag(p)
    ensures NoLayoutFlag(p
      + (if s.bframes > 0 then ["-bf", Num(s.bframes)] else [])
      + (if s.refFrames > 0 then ["-refs", Num(s.refFrames)] else [])
      + (if s.aqMode != AqMode.None then ["-aq-mode", Num(AqModeValue(s.aqMode)), "-aq-strength", Tenths(s.aqStrength)] else [])
      + (if s.lookahead > 0 then ["-rc-lookahead", Num(s.lookahead)] else []))
  {
    var e := if s.bframes > 0 then ["-bf", Num(s.bframes)] else [];
    OptionalFree(s.bframes > 0, "-bf", Num(s.bframes));
    var f := if s.refFrames > 0 then ["-refs", Num(s.refFrames)] else [];
    OptionalFree(s.refFrames > 0, "-refs", Num(s.refFrames));
    var g := if s.aqMode != AqMode.None then ["-aq-mode", Num(AqModeValue(s.aqMode)), "-aq-strength", Tenths(s.aqStrength)] else [];
    OptionalsFree(s.aqMode != AqMode.None, "-aq-mode", Num(AqModeValue(s.aqMode)), "-aq-strength", Tenths(s.aqStrength));
    var k := if s.lookahead > 0 then ["-rc-lookahead", Num(s.lookahead)] else [];
    OptionalFree(s.lookahead > 0, "-rc-lookahead", Num(s.lookahead));
    NoLayoutFlagConcat(p, e);
    NoLayoutFlagConcat(p + e, f);
    NoLayoutFlagConcat(p + e + f, g);
    NoLayoutFlagConcat(p + e + f + g, k);
  }

  lemma X264ArgsFree(s: TranscodeSettings)
    requires s.rateControl == Cbr ==> 2 * s.targetBitrate < U32_LIMIT
    ensures NoLayoutFlag(X264Args(s))
  {
    var a := ["-profile:v", X264ProfileValue(s.x264Profile)];
    OptionFree("-profile:v", X264ProfileValue(s.x264Profile));
    var b := RateControlArgs(s, Software);
    RateControlFree(s, Software);
    var c := ["-preset", PresetName(s.preset)];
    OptionFree("-preset", PresetName(s.preset));
    var d := X264TuneArgs(s);
    match X264TuneValue(s.x264Tune) {
      case Some(t) => OptionFree("-tune", t);
      case None =>
    }
    NoLayoutFlagConcat(a, b);
    NoLayoutFlagConcat(a + b, c);
    NoLayoutFlagConcat(a + b + c, d);
    X264OptionalsFree(s, a + b + c + d);
  }

  /** Each `key=value` item of `-x265-params` starts with a letter. */
  lemma X265ParamsStartWithLetters(s: TranscodeSettings)
    ensures forall i | 0 <= i < |X265Params(s)| :: X265Params(s)[i] != [] && 'a' <= X265Params(s)[i][0] <= 'z'
  {
  }

  lemma X265ArgsFree(s: TranscodeSettings)
    requires s.rateControl == Cbr ==> 2 * s.targetBitrate < U32_LIMIT
    ensures NoLayoutFlag(X265Args(s))
  {
    var a := RateControlArgs(s, Software);
    RateControlFree(s, Software);
    var b := ["-preset", PresetName(s.preset)];
    OptionFree("-preset", PresetName(s.preset));
    var c := X265TuneArgs(s);
    match X264TuneValue(s.x264Tune) {
      case Some(t) => OptionFree("-tune", t);
      case None =>
    }
    var d := X265ParamsArgs(s);
    if X265Params(s) != [] {
      X265ParamsStartWithLetters(s);
      JoinHead(X265Params(s), ":");
      OptionFree("-x265-params", Join(X265Params(s), ":"));
    }
    NoLayoutFlagConcat(a, b);
    NoLayoutFlagConcat(a + b, c);
    NoLayoutFlagConcat(a + b + c, d);
  }

  lemma Vp9ArgsFree(s: TranscodeSettings)
    ensures NoLayoutFlag(Vp9Args(s))
  {
    var a := Vp9RateControl(s);
    Vp9RateControlFree(s);
    var b := ["-cpu-used", Vp9CpuUsed(s.preset), "-deadline", "good", "-row-mt", "1"];
    OptionsFree("-cpu-used", Vp9CpuUsed(s.preset), "-deadline", "good");
    OptionFree("-row-mt", "1");
    NoLayoutFlagConcat(["-cpu-used", Vp9CpuUsed(s.preset), "-deadline", "good"], ["-row-mt", "1"]);
    assert b == ["-cpu-used", Vp9CpuUsed(s.preset), "-deadline", "good"] + ["-row-mt", "1"];
    var c := if s.vp9TileColumns > 0 then ["-tile-columns", Num(s.vp9TileColumns)] else [];
    OptionalFree(s.vp9TileColumns > 0, "-tile-columns", Num(s.vp9TileColumns));
    var d := if s.vp9TileRows > 0 then ["-tile-rows", Num(s.vp9TileRows)] else [];
    OptionalFree(s.vp9TileRows > 0, "-tile-rows", Num(s.vp9TileRows));
    var e := if s.vp9FrameParallel then ["-frame-parallel", "1"] else [];
    OptionalFree(s.vp9FrameParallel, "-frame-parallel", "1");
    var f := Vp9AltRef(s);
    if s.vp9AutoAltRef {
      OptionFree("-auto-alt-ref", "1");
      OptionalFree(s.vp9LagInFrames > 0, "-lag-in-frames", Num(s.vp9LagInFrames));
      NoLayoutFlagConcat(["-auto-alt-ref", "1"], if s.vp9LagInFrames > 0 then ["-lag-in-frames", Num(s.vp9LagInFrames)] else []);
    }
    NoLayoutFlagConcat(a, b);
    NoLayoutFlagConcat(a + b, c);
    NoLayoutFlagConcat(a + b + c, d);
    NoLayoutFlagConcat(a + b + c + d, e);
    NoLayoutFlagConcat(a + b + c + d + e, f);
  }

  lemma LibaomAv1ArgsFree(s: TranscodeSettings)
    ensures NoLayoutFlag(LibaomAv1Args(s))
  {
    var a := LibaomRateControl(s);
    LibaomRateControlFree(s);
    var b := ["-cpu-used", LibaomCpuUsed(s.preset), "-row-mt", "1"];
    OptionsFree("-cpu-used", LibaomCpuUsed(s.preset), "-row-mt", "1");
    var tiles := Num(s.av1TileColumns) + "x" + Num(s.av1TileRows);
    assert tiles[0] == Num(s.av1TileColumns)[0];
    var c := ["-tiles", tiles];
    OptionFree("-tiles", tiles);
    NoLayoutFlagConcat(a, b);
    NoLayoutFlagConcat(a + b, c);
  }

  lemma SvtAv1ArgsFree(s: TranscodeSettings)
    ensures NoLayoutFlag(SvtAv1Args(s))
  {
    var a := SvtAv1RateControl(s);
    SvtAv1RateControlFree(s);
    var b := ["-preset", SvtAv1Preset(s.preset)];
    OptionFree("-preset", SvtAv1Preset(s.preset));
    var c := if s.svtav1FilmGrain > 0 then ["-svtav1-params", FilmGrainParams(s)] else [];
    assert FilmGrainParams(s)[0] == 'f';
    OptionalFree(s.svtav1FilmGrain > 0, "-svtav1-params", FilmGrainParams(s));
    var d := if s.av1TileColumns > 0 || s.av1TileRows > 0
             then ["-tile_columns", Num(s.av1TileColumns), "-tile_rows", Num(s.av1TileRows)] else [];
    OptionalsFree(s.av1TileColumns > 0 || s.av1TileRows > 0,
                  "-tile_columns", Num(s.av1TileColumns), "-tile_rows", Num(s.av1TileRows));
    NoLayoutFlagConcat(a, b);
    NoLayoutFlagConcat(a + b, c);
    NoLayoutFlagConcat(a + b + c, d);
  }

  /**
   * Whatever the encoder, its option block emits none of the flags whose
   * place the layout fixes.
   */
  lemma EncoderOptionArgsFree(s: TranscodeSettings, encoder: string, h: HwAccelType)
    requires ArgsDefined(s, encoder)
    ensures NoLayoutFlag(EncoderOptionArgs(s, encoder, h))
  {
    match FamilyOf(encoder) {
      case NvencFamily => NvencArgsFree(s);
      case QsvFamily => QsvArgsFree(s);
      case AmfFamily => AmfArgsFree(s);
      case X264Family => X264ArgsFree(s);
      case X265Family => X265ArgsFree(s);
      case Vp9Family => Vp9ArgsFree(s);
      case LibaomFamily => LibaomAv1ArgsFree(s);
      case SvtAv1Family => SvtAv1ArgsFree(s);
      case GenericFamily =>
        RateControlFree(s, h);
        OptionFree("-preset", PresetName(s.preset));
        NoLayoutFlagConcat(RateControlArgs(s, h), ["-preset", PresetName(s.preset)]);
    }
  }

  /**
   * In the libx265 block, `-x265-params` occurs exactly when some x265
   * parameter is set, and then it closes the block, followed by the items
   * joined with `:`.
   */
  lemma X265ParamsRule(s: TranscodeSettings)
    requires s.rateControl == Cbr ==> 2 * s.targetBitrate < U32_LIMIT
    ensures var r := X265Args(s);
      ("-x265-params" in r <==> s.bframes > 0 || s.refFrames > 0 || s.aqMode != AqMode.None || s.lookahead > 0)
      && ("-x265-params" in r ==> |r| >= 2 && r[|r| - 2] == "-x265-params" && r[|r| - 1] == Join(X265Params(s), ":"))
  {
    var r := X265Args(s);
    X265ParamsPresence(s);
    var rc, p, t := RateControlArgs(s, Software), ["-preset", PresetName(s.preset)], X265TuneArgs(s);
    RateControlLacksX265Params(s);
    assert "-x265-params" !in p + t;
    assert r == rc + (p + t) + X265ParamsArgs(s);
  }

  lemma RateControlLacksX265Params(s: TranscodeSettings)
    requires s.rateControl == Cbr ==> 2 * s.targetBitrate < U32_LIMIT
    ensures "-x265-params" !in RateControlArgs(s, Software)
  {
  }

  // ---------------------------------------------------------------------
  // The shape of the command line
  // ---------------------------------------------------------------------

  /** How often a layout flag occurs in the acceleration block. */
  lemma HwaccelCount(h: HwAccelType, t: string)
    requires LayoutShaped(t)
    ensures CountOf(HwaccelArgs(h), t) == if IsVendor(h) && t == "-hwaccel" then 1 else 0
  {
    var r := HwaccelArgs(h);
    if r != [] {
      assert r == [r[0], r[1]];
      PairCount(r[0], r[1], t);
    }
  }

  lemma ScaleCount(res: VideoResolution, t: string)
    requires LayoutShaped(t)
    ensures CountOf(ScaleArgs(res), t) == if res != Original && t == "-vf" then 1 else 0
  {
    ScaleArgsByDimensions(res);
    if res != Original {
      PairCount("-vf", ScaleFilter(Dimensions(res).0, Dimensions(res).1), t);
    }
  }

  lemma GopCount(gop: nat, t: string)
    requires LayoutShaped(t)
    ensures CountOf(GopArgs(gop), t) == if gop > 0 && t == "-g" then 1 else 0
  {
    if gop > 0 {
      PairCount("-g", Num(gop), t);
    }
  }

  lemma AudioCount(s: TranscodeSettings, t: string)
    requires LayoutShaped(t)
    ensures CountOf(AudioArgs(s), t)
      == (if t == "-c:a" then 1 else 0) + (if s.audioCodec in {Aac, Mp3} && t == "-b:a" then 1 else 0)
  {
    match s.audioCodec {
      case Copy => PairCount("-c:a", "copy", t);
      case Aac =>
        PairCount("-c:a", "aac", t);
        PairCount("-b:a", Kbps(s.audioBitrate), t);
        CountOfConcat(["-c:a", "aac"], ["-b:a", Kbps(s.audioBitrate)], t);
      case Mp3 =>
        PairCount("-c:a", "libmp3lame", t);
        PairCount("-b:a", Kbps(s.audioBitrate), t);
        CountOfConcat(["-c:a", "libmp3lame"], ["-b:a", Kbps(s.audioBitrate)], t);
      case Flac => PairCount("-c:a", "flac", t);
    }
  }

  lemma TailCount(output: string, t: string)
    requires LayoutShaped(t) && t != output
    ensures CountOf(TailArgs(output), t)
      == (if t == "-progress" then 1 else 0) + (if t == "-stats_period" then 1 else 0) + (if t == "-y" then 1 else 0)
  {
    var p, q, y := ["-progress", "pipe:1"], ["-stats_period", "0.5"], ["-y", output];
    PairCount("-progress", "pipe:1", t);
    PairCount("-stats_period", "0.5", t);
    PairCount("-y", output, t);
    CountOfConcat(p, q, t);
    CountOfConcat(p + q, y, t);
    assert TailArgs(output) == p + q + y;
  }

  lemma VideoCount(s: TranscodeSettings, encoder: string, h: HwAccelType, t: string)
    requires ArgsDefined(s, encoder)
    requires IsLayoutFlag(t) && t != encoder
    ensures CountOf(VideoArgs(s, encoder, h), t)
      == (if t == "-c:v" then 1 else 0) + (if s.resolution != Original && t == "-vf" then 1 else 0)
         + (if s.gopSize > 0 && t == "-g" then 1 else 0)
  {
    LayoutFlagIsShaped(t);
    var c, sc, e, g := ["-c:v", encoder], ScaleArgs(s.resolution), EncoderOptionArgs(s, encoder, h), GopArgs(s.gopSize);
    EncoderOptionArgsFree(s, encoder, h);
    NoLayoutFlagHasNone(e, t);
    PairCount("-c:v", encoder, t);
    ScaleCount(s.resolution, t);
    GopCount(s.gopSize, t);
    CountOfConcat(c, sc, t);
    CountOfConcat(c + sc, e, t);
    CountOfConcat(c + sc + e, g, t);
  }

  /**
   * How often a layout flag occurs in the whole command line: once per
   * block that emits it, and never in an encoder block.
   */
  lemma LayoutFlagCount(s: TranscodeSettings, input: string, output: string, encoder: string, h: HwAccelType, t: string)
    requires ArgsDefined(s, encoder)
    requires IsLayoutFlag(t) && t != input && t != output && t != encoder
    ensures CountOf(FfmpegArgs(s, input, output, encoder, h), t)
      == (if IsVendor(h) && t == "-hwaccel" then 1 else 0)
         + (if t == "-i" then 1 else 0) + (if t == "-c:v" then 1 else 0)
         + (if s.resolution != Original && t == "-vf" then 1 else 0)
         + (if s.gopSize > 0 && t == "-g" then 1 else 0)
         + (if t == "-c:a" then 1 else 0) + (if s.audioCodec in {Aac, Mp3} && t == "-b:a" then 1 else 0)
         + (if t == "-progress" then 1 else 0) + (if t == "-stats_period" then 1 else 0) + (if t == "-y" then 1 else 0)
  {
    LayoutFlagIsShaped(t);
    HwaccelCount(h, t);
    PairCount("-i", input, t);
    VideoCount(s, encoder, h, t);
    AudioCount(s, t);
    TailCount(output, t);
    CountOfFive(HwaccelArgs(h), ["-i", input], VideoArgs(s, encoder, h), AudioArgs(s), TailArgs(output), t);
  }

  /** Where each block lands in the assembled command line. */
  lemma Assembly(hw: seq<string>, input: string, v: seq<string>, a: seq<string>, tl: seq<string>)
    ensures var r := hw + ["-i", input] + v + a + tl;
      |r| == |hw| + 2 + |v| + |a| + |tl|
      && r[..|hw|] == hw && r[|hw|] == "-i" && r[|hw| + 1] == input
      && (forall j | 0 <= j < |v| :: r[|hw| + 2 + j] == v[j])
      && (forall j | 0 <= j < |a| :: r[|hw| + 2 + |v| + j] == a[j])
      && r[|r| - |tl|..] == tl
  {
    var r := hw + ["-i", input] + v + a + tl;
    assert r == hw + (["-i", input] + v + a + tl);
  }

  /** The second part of four, when the first has two elements, sits at positions 2 and 3. */
  lemma SecondPairAt(c: seq<string>, sc: seq<string>, e: seq<string>, g: seq<string>)
    requires |c| == 2 && |sc| == 2
    ensures var v := c + sc + e + g; |v| >= 4 && v[2] == sc[0] && v[3] == sc[1]
  {
  }

  /** The last pair of `pre + v`, followed by `a` and `tl`, counted from the end. */
  lemma PairBeforeEnd(pre: seq<string>, v: seq<string>, a: seq<string>, tl: seq<string>)
    requires |v| >= 2
    ensures var r := pre + v + a + tl; var j := |r| - |tl| - |a|;
      j >= 2 && r[j - 2] == v[|v| - 2] && r[j - 1] == v[|v| - 1]
  {
  }

  /** The third and fourth of four elements before a six-element tail. */
  lemma EighthFromEnd(pre: seq<string>, a: seq<string>, tl: seq<string>)
    requires |a| == 4 && |tl| == 6
    ensures var r := pre + a + tl; |r| >= 8 && r[|r| - 8] == a[2] && r[|r| - 7] == a[3]
  {
  }

  /** The scale filter, when there is one, follows `-c:v` and the encoder. */
  lemma VideoScaleAt(s: TranscodeSettings, encoder: string, h: HwAccelType)
    requires ArgsDefined(s, encoder) && s.resolution != Original
    ensures var v := VideoArgs(s, encoder, h);
      |v| >= 4 && v[2] == "-vf" && v[3] == ScaleFilter(Dimensions(s.resolution).0, Dimensions(s.resolution).1)
  {
    ScaleArgsByDimensions(s.resolution);
    SecondPairAt(["-c:v", encoder], ScaleArgs(s.resolution), EncoderOptionArgs(s, encoder, h), GopArgs(s.gopSize));
  }

  /** The GOP option, when there is one, closes the video block. */
  lemma VideoGopAt(s: TranscodeSettings, encoder: string, h: HwAccelType)
    requires ArgsDefined(s, encoder) && s.gopSize > 0
    ensures var v := VideoArgs(s, encoder, h);
      |v| >= 4 && v[|v| - 2] == "-g" && v[|v| - 1] == Num(s.gopSize)
  {
    var front := ["-c:v", encoder] + ScaleArgs(s.resolution) + EncoderOptionArgs(s, encoder, h);
    assert VideoArgs(s, encoder, h) == front + ["-g", Num(s.gopSize)];
  }

  /**
   * The list opens with the acceleration block, then `-i` and the input,
   * then `-c:v` and the encoder.
   */
  lemma CommandLineHead(s: TranscodeSettings, input: string, output: string, encoder: string, h: HwAccelType)
    requires ArgsDefined(s, encoder)
    ensures var r := FfmpegArgs(s, input, output, encoder, h);
      var k := |HwaccelArgs(h)|;
      |r| >= k + 4
      && r[..k] == HwaccelArgs(h)
      && r[k] == "-i" && r[k + 1] == input
      && r[k + 2] == "-c:v" && r[k + 3] == encoder
  {
    Assembly(HwaccelArgs(h), input, VideoArgs(s, encoder, h), AudioArgs(s), TailArgs(output));
  }

  /** The last six elements are the fixed progress-and-output tail. */
  lemma CommandLineTail(s: TranscodeSettings, input: string, output: string, encoder: string, h: HwAccelType)
    requires ArgsDefined(s, encoder)
    ensures var r := FfmpegArgs(s, input, output, encoder, h);
      |r| >= 10 && r[|r| - 6..] == ["-progress", "pipe:1", "-stats_period", "0.5", "-y", output]
  {
    Assembly(HwaccelArgs(h), input, VideoArgs(s, encoder, h), AudioArgs(s), TailArgs(output));
  }

  /**
   * `-i`, `-c:v` and `-c:a` each occur exactly once, provided the paths
   * and the encoder name are not themselves layout flags.
   */
  lemma CodecFlagsOnce(s: TranscodeSettings, input: string, output: string, encoder: string, h: HwAccelType)
    requires ArgsDefined(s, encoder)
    requires !IsLayoutFlag(input) && !IsLayoutFlag(output) && !IsLayoutFlag(encoder)
    ensures var r := FfmpegArgs(s, input, output, encoder, h);
      CountOf(r, "-i") == 1 && CountOf(r, "-c:v") == 1 && CountOf(r, "-c:a") == 1
  {
    LayoutFlagCount(s, input, output, encoder, h, "-i");
    LayoutFlagCount(s, input, output, encoder, h, "-c:v");
    LayoutFlagCount(s, input, output, encoder, h, "-c:a");
  }

  /** `-progress`, `-stats_period` and `-y` each occur exactly once, in the tail. */
  lemma TailFlagsOnce(s: TranscodeSettings, input: string, output: string, encoder: string, h: HwAccelType)
    requires ArgsDefined(s, encoder)
    requires !IsLayoutFlag(input) && !IsLayoutFlag(output) && !IsLayoutFlag(encoder)
    ensures var r := FfmpegArgs(s, input, output, encoder, h);
      CountOf(r, "-progress") == 1 && CountOf(r, "-stats_period") == 1 && CountOf(r, "-y") == 1
  {
    LayoutFlagCount(s, input, output, encoder, h, "-progress");
    LayoutFlagCount(s, input, output, encoder, h, "-stats_period");
    LayoutFlagCount(s, input, output, encoder, h, "-y");
  }

  /**
   * `Original` emits no `-vf`; any other resolution emits exactly one,
   * right after the encoder, followed by the scale filter of its dimensions.
   */
  lemma ScaleRule(s: TranscodeSettings, input: string, output: string, encoder: string, h: HwAccelType)
    requires ArgsDefined(s, encoder)
    requires !IsLayoutFlag(input) && !IsLayoutFlag(output) && !IsLayoutFlag(encoder)
    ensures var r := FfmpegArgs(s, input, output, encoder, h);
      var k := |HwaccelArgs(h)|;
      (s.resolution == Original <==> "-vf" !in r)
      && (s.resolution != Original ==>
            CountOf(r, "-vf") == 1 && |r| > k + 5 && r[k + 4] == "-vf"
            && r[k + 5] == ScaleFilter(Dimensions(s.resolution).0, Dimensions(s.resolution).1))
  {
    LayoutFlagCount(s, input, output, encoder, h, "-vf");
    Assembly(HwaccelArgs(h), input, VideoArgs(s, encoder, h), AudioArgs(s), TailArgs(output));
    if s.resolution != Original {
      VideoScaleAt(s, encoder, h);
    }
  }

  /**
   * `-b:a` occurs exactly when the audio codec is AAC or MP3, once, eighth
   * from the end, followed by the bitrate in kilobits.
   */
  lemma AudioBitrateRule(s: TranscodeSettings, input: string, output: string, encoder: string, h: HwAccelType)
    requires ArgsDefined(s, encoder)
    requires !IsLayoutFlag(input) && !IsLayoutFlag(output) && !IsLayoutFlag(encoder)
    ensures var r := FfmpegArgs(s, input, output, encoder, h);
      (s.audioCodec in {Aac, Mp3} <==> "-b:a" in r)
      && (s.audioCodec in {Aac, Mp3} ==>
            CountOf(r, "-b:a") == 1 && |r| >= 8 && r[|r| - 8] == "-b:a" && r[|r| - 7] == Kbps(s.audioBitrate))
  {
    LayoutFlagCount(s, input, output, encoder, h, "-b:a");
    if s.audioCodec in {Aac, Mp3} {
      EighthFromEnd(HwaccelArgs(h) + ["-i", input] + VideoArgs(s, encoder, h), AudioArgs(s), TailArgs(output));
    }
  }

  /** `-g` occurs exactly when a GOP size is set, once, just before the audio block. */
  lemma GopRule(s: TranscodeSettings, input: string, output: string, encoder: string, h: HwAccelType)
    requires ArgsDefined(s, encoder)
    requires !IsLayoutFlag(input) && !IsLayoutFlag(output) && !IsLayoutFlag(encoder)
    ensures var r := FfmpegArgs(s, input, output, encoder, h);
      var j := |r| - 6 - |AudioArgs(s)|;
      (s.gopSize > 0 <==> "-g" in r)
      && (s.gopSize > 0 ==> CountOf(r, "-g") == 1 && j >= 2 && r[j - 2] == "-g" && r[j - 1] == Num(s.gopSize))
  {
    LayoutFlagCount(s, input, output, encoder, h, "-g");
    if s.gopSize > 0 {
      VideoGopAt(s, encoder, h);
      PairBeforeEnd(HwaccelArgs(h) + ["-i", input], VideoArgs(s, encoder, h), AudioArgs(s), TailArgs(output));
    }
  }

  /** `-hwaccel` occurs exactly for a vendor acceleration type, once, at the head. */
  lemma HwaccelRule(s: TranscodeSettings, input: string, output: string, encoder: string, h: HwAccelType)
    requires ArgsDefined(s, encoder)
    requires !IsLayoutFlag(input) && !IsLayoutFlag(output) && !IsLayoutFlag(encoder)
    ensures var r := FfmpegArgs(s, input, output, encoder, h);
      CountOf(r, "-hwaccel") == (if IsVendor(h) then 1 else 0)
      && (IsVendor(h) ==> r[0] == "-hwaccel")
  {
    LayoutFlagCount(s, input, output, encoder, h, "-hwaccel");
    Assembly(HwaccelArgs(h), input, VideoArgs(s, encoder, h), AudioArgs(s), TailArgs(output));
  }

  // ---------------------------------------------------------------------
  // Output paths
  // ---------------------------------------------------------------------

  /** The input's stem, or `output` when it has none. */
  function InputStem(input: string): (r: string)
    ensures r != [] && '/' !in r
  {
    match FileStem(input)
    case Some(stem) => stem
    case None => "output"
  }

  /**
   * `generate_output_path`: `dir / (stem ++ suffix ++ "." ++ extension)`.
   * With a slash-free suffix the result's file name, stem and extension
   * are exactly the parts it was built from.
   */
  function OutputPath(input: string, outputDir: string, suffix: string, container: ContainerFormat): (r: string)
    ensures '/' !in suffix ==>
      FileName(r) == Some(InputStem(input) + suffix + "." + ContainerExtension(container))
      && FileStem(r) == Some(InputStem(input) + suffix)
      && Extension(r) == Some(ContainerExtension(container))
    ensures r == outputDir + InputStem(input) + suffix + "." + ContainerExtension(container)
            || r == outputDir + "/" + InputStem(input) + suffix + "." + ContainerExtension(container)
  {
    var stem := InputStem(input);
    var ext := ContainerExtension(container);
    var name := stem + suffix + "." + ext;
    var r := PathJoin(outputDir, name);
    assert name[0] == stem[0] != '/';
    assert outputDir + name == outputDir + stem + suffix + "." + ext;
    assert outputDir + "/" + name == outputDir + "/" + stem + suffix + "." + ext;
    if '/' !in suffix then
      assert '/' !in name;
      assert name[|name| - 3..] == ext;
      FileNameOfJoin(outputDir, name);
      SplitNameOf(stem + suffix, ext);
      r
    else
      r
  }

  // ---------------------------------------------------------------------
  // The job and the methods that push the command line
  // ---------------------------------------------------------------------

  /**
   * A queued transcode. The `add_*_args` methods take the argument vector
   * being built (a `&mut Vec<String>` in the program) and return it with
   * their block pushed onto the end, one token at a time.
   */
  class TranscodeJob {
    var inputPath: string
    var outputPath: string
    var settings: TranscodeSettings
    /** The cancellation flag; the `Arc` sharing is modelled by `Progress.CancelFlag`. */
    var cancelled: bool
    var state: JobState

    /** A new job is pending and not cancelled. */
    constructor(input: string, output: string, s: TranscodeSettings)
      ensures inputPath == input && outputPath == output && settings == s
      ensures !cancelled && state == Pending
    {
      inputPath := input;
      outputPath := output;
      settings := s;
      cancelled := false;
      state := Pending;
    }

    /** Raises the cancellation flag and touches nothing else. */
    method Cancel()
      modifies this
      ensures IsCancelled()
      ensures inputPath == old(inputPath) && outputPath == old(outputPath)
      ensures settings == old(settings) && state == old(state)
    {
      cancelled := true;
    }

    predicate IsCancelled()
      reads this
    {
      cancelled
    }

    /**
     * The argument list for the given encoder and acceleration kind:
     * acceleration context, input, video, audio, then the fixed tail.
     */
    method BuildFfmpegArgs(encoder: string, h: HwAccelType) returns (args: seq<string>)
      requires ArgsDefined(settings, encoder)
      ensures args == FfmpegArgs(settings, inputPath, outputPath, encoder, h)
    {
      args := [];
      args := AddHwaccelArgs(args, h);
      assert args == HwaccelArgs(h);
      args := args + ["-i", inputPath];
      args := AddVideoArgsWithEncoder(args, encoder, h);
      args := AddAudioArgs(args);
      var tail := ["-progress", "pipe:1", "-stats_period", "0.5", "-y", outputPath];
      assert tail == TailArgs(outputPath);
      args := args + tail;
    }

    method AddHwaccelArgs(args: seq<string>, h: HwAccelType) returns (out: seq<string>)
      ensures out == args + HwaccelArgs(h)
    {
      out := args;
      match h {
        case Auto =>
        case Nvenc => out := out + ["-hwaccel", "cuda"];
        case Qsv => out := out + ["-hwaccel", "qsv"];
        case Amf => out := out + ["-hwaccel", "d3d11va"];
        case Software =>
      }
    }

    /**
     * `-c:v <encoder>`, the scale filter, the encoder's own block and the
     * GOP length.
     */
    method AddVideoArgsWithEncoder(args: seq<string>, encoder: string, h: HwAccelType) returns (out: seq<string>)
      requires ArgsDefined(settings, encoder)
      ensures out == args + VideoArgs(settings, encoder, h)
    {
      var s := settings;
      var head := ["-c:v", encoder];
      out := args + head;
      var scale: seq<string> := [];
      if s.resolution.Custom? {
        scale := ["-vf", ScaleFilter(s.resolution.width, s.resolution.height)];
      } else if s.resolution != Original {
        var d := Dimensions(s.resolution);
        scale := ["-vf", ScaleFilter(d.0, d.1)];
      }
      assert scale == ScaleArgs(s.resolution);
      out := out + scale;
      AppendAssoc(args, head, scale);
      ghost var done := head + scale;
      out := AddEncoderOptionArgs(out, encoder, h);
      AppendAssoc(args, done, EncoderOptionArgs(s, encoder, h));
      done := done + EncoderOptionArgs(s, encoder, h);
      var gop: seq<string> := [];
      if s.gopSize > 0 {
        gop := ["-g", Num(s.gopSize)];
      }
      out := out + gop;
      AppendAssoc(args, done, gop);
    }

    /** The encoder's own options, chosen by the encoder's name. */
    method AddEncoderOptionArgs(args: seq<string>, encoder: string, h: HwAccelType) returns (out: seq<string>)
      requires ArgsDefined(settings, encoder)
      ensures out == args + EncoderOptionArgs(settings, encoder, h)
    {
      match FamilyOf(encoder) {
        case NvencFamily => out := AddNvencArgs(args);
        case QsvFamily => out := AddQsvArgs(args);
        case AmfFamily => out := AddAmfArgs(args);
        case X264Family => out := AddX264Args(args);
        case X265Family => out := AddX265Args(args);
        case Vp9Family => out := AddVp9Args(args);
        case LibaomFamily => out := AddLibaomAv1Args(args);
        case SvtAv1Family => out := AddSvtAv1Args(args);
        case GenericFamily =>
          out := AddRateControlArgs(args, h);
          var preset := ["-preset", PresetName(settings.preset)];
          out := out + preset;
          AppendAssoc(args, RateControlArgs(settings, h), preset);
      }
    }

    /** The older entry point: the encoder named by the settings themselves. */
    method AddVideoArgs(args: seq<string>) returns (out: seq<string>)
      requires ArgsDefined(settings, EncoderName(settings.videoCodec, settings.hwaccel))
      ensures out == args + VideoArgs(settings, EncoderName(settings.videoCodec, settings.hwaccel), settings.hwaccel)
    {
      var encoder := EncoderName(settings.videoCodec, settings.hwaccel);
      out := AddVideoArgsWithEncoder(args, encoder, settings.hwaccel);
    }

    method AddRateControlArgs(args: seq<string>, h: HwAccelType) returns (out: seq<string>)
      requires settings.rateControl == Cbr ==> 2 * settings.targetBitrate < U32_LIMIT
      ensures out == args + RateControlArgs(settings, h)
    {
      var s := settings;
      var rc: seq<string>;
      match s.rateControl {
        case Crf =>
          if IsVendor(h) {
            rc := ["-cq", Num(s.crf)];
          } else {
            rc := ["-crf", Num(s.crf)];
          }
        case Cbr =>
          rc := ["-b:v", Kbps(s.targetBitrate), "-maxrate", Kbps(s.targetBitrate), "-bufsize", Kbps(2 * s.targetBitrate)];
        case Vbr =>
          rc := ["-b:v", Kbps(s.targetBitrate), "-maxrate", Kbps(s.maxBitrate), "-bufsize", Kbps(s.maxBitrate)];
        case Cqp =>
          rc := ["-qp", Num(s.crf)];
      }
      out := args + rc;
    }

    method AddNvencArgs(args: seq<string>) returns (out: seq<string>)
      ensures out == args + NvencArgs(settings)
    {
      var s := settings;
      var tune := ["-tune", NvencTuneValue(s.nvencTune)];
      out := args + tune;
      ghost var done := tune;
      var rc := NvencRateControl(s);
      out := out + rc;
      AppendAssoc(args, done, rc);
      done := done + rc;
      var tuning := ["-preset", NvencPreset(s.preset), "-multipass", NvencMultipassValue(s.nvencMultipass)];
      out := out + tuning;
      AppendAssoc(args, done, tuning);
      done := done + tuning;
      var bf: seq<string> := [];
      if s.bframes > 0 {
        bf := ["-bf", Num(s.bframes), "-b_ref_mode", NvencBRefModeValue(s.nvencBRefMode)];
      }
      out := out + bf;
      AppendAssoc(args, done, bf);
      done := done + bf;
      var la: seq<string> := [];
      if s.lookahead > 0 {
        la := ["-rc-lookahead", Num(s.lookahead)];
      }
      out := out + la;
      AppendAssoc(args, done, la);
      done := done + la;
      var aq: seq<string> := [];
      if s.aqMode != AqMode.None {
        aq := ["-spatial-aq", "1", "-aq-strength", Num(s.aqStrength)];
      }
      out := out + aq;
      AppendAssoc(args, done, aq);
    }

    method AddQsvArgs(args: seq<string>) returns (out: seq<string>)
      ensures out == args + QsvArgs(settings)
    {
      var s := settings;
      var rc := QsvRateControl(s);
      out := args + rc;
      ghost var done := rc;
      var preset := ["-preset", QsvPreset(s.preset)];
      out := out + preset;
      AppendAssoc(args, done, preset);
      done := done + preset;
      var la: seq<string> := [];
      if s.qsvLaDepth > 0 {
        la := ["-look_ahead", "1", "-look_ahead_depth", Num(s.qsvLaDepth)];
      }
      out := out + la;
      AppendAssoc(args, done, la);
      done := done + la;
      var ai: seq<string> := [];
      if s.qsvAdaptiveI {
        ai := ["-adaptive_i", "1"];
      }
      out := out + ai;
      AppendAssoc(args, done, ai);
      done := done + ai;
      var ab: seq<string> := [];
      if s.qsvAdaptiveB {
        ab := ["-adaptive_b", "1"];
      }
      out := out + ab;
      AppendAssoc(args, done, ab);
      done := done + ab;
      var bf: seq<string> := [];
      if s.bframes > 0 {
        bf := ["-bf", Num(s.bframes)];
      }
      out := out + bf;
      AppendAssoc(args, done, bf);
      done := done + bf;
      var refs: seq<string> := [];
      if s.refFrames > 0 {
        refs := ["-refs", Num(s.refFrames)];
      }
      out := out + refs;
      AppendAssoc(args, done, refs);
    }

    method AddAmfArgs(args: seq<string>) returns (out: seq<string>)
      requires settings.rateControl == Crf ==> settings.crf + 2 < U8_LIMIT
      ensures out == args + AmfArgs(settings)
    {
      var s := settings;
      var usage := ["-usage", AmfUsageValue(s.amfUsage), "-quality", AmfQualityValue(s.amfQuality)];
      out := args + usage;
      ghost var done := usage;
      var rc := AmfRateControl(s);
      out := out + rc;
      AppendAssoc(args, done, rc);
      done := done + rc;
      var bf: seq<string> := [];
      if s.bframes > 0 {
        bf := ["-bf", Num(s.bframes)];
      }
      out := out + bf;
      AppendAssoc(args, done, bf);
    }

    method AddX264Args(args: seq<string>) returns (out: seq<string>)
      requires settings.rateControl == Cbr ==> 2 * settings.targetBitrate < U32_LIMIT
      ensures out == args + X264Args(settings)
    {
      var s := settings;
      var profile := ["-profile:v", X264ProfileValue(s.x264Profile)];
      out := args + profile;
      ghost var done := profile;
      out := AddRateControlArgs(out, Software);
      AppendAssoc(args, done, RateControlArgs(s, Software));
      done := done + RateControlArgs(s, Software);
      var preset := ["-preset", PresetName(s.preset)];
      out := out + preset;
      AppendAssoc(args, done, preset);
      done := done + preset;
      var tune: seq<string> := [];
      match X264TuneValue(s.x264Tune) {
        case Some(t) => tune := ["-tune", t];
        case None =>
      }
      out := out + tune;
      AppendAssoc(args, done, tune);
      done := done + tune;
      var bf: seq<string> := [];
      if s.bframes > 0 {
        bf := ["-bf", Num(s.bframes)];
      }
      out := out + bf;
      AppendAssoc(args, done, bf);
      done := done + bf;
      var refs: seq<string> := [];
      if s.refFrames > 0 {
        refs := ["-refs", Num(s.refFrames)];
      }
      out := out + refs;
      AppendAssoc(args, done, refs);
      done := done + refs;
      var aq: seq<string> := [];
      if s.aqMode != AqMode.None {
        aq := ["-aq-mode", Num(AqModeValue(s.aqMode)), "-aq-strength", Tenths(s.aqStrength)];
      }
      out := out + aq;
      AppendAssoc(args, done, aq);
      done := done + aq;
      var la: seq<string> := [];
      if s.lookahead > 0 {
        la := ["-rc-lookahead", Num(s.lookahead)];
      }
      out := out + la;
      AppendAssoc(args, done, la);
    }

    /** x265 takes its frame-level options as one `-x265-params` string. */
    method AddX265Args(args: seq<string>) returns (out: seq<string>)
      requires settings.rateControl == Cbr ==> 2 * settings.targetBitrate < U32_LIMIT
      ensures out == args + X265Args(settings)
    {
      var s := settings;
      out := AddRateControlArgs(args, Software);
      ghost var done := RateControlArgs(s, Software);
      var preset := ["-preset", PresetName(s.preset)];
      out := out + preset;
      AppendAssoc(args, done, preset);
      done := done + preset;
      var tune: seq<string> := [];
      match X264TuneValue(s.x264Tune) {
        case Some(t) =>
          if X265AcceptsTune(t) {
            tune := ["-tune", t];
          }
        case None =>
      }
      out := out + tune;
      AppendAssoc(args, done, tune);
      done := done + tune;
      var params: seq<string> := [];
      if s.bframes > 0 {
        params := params + ["bframes=" + Num(s.bframes)];
      }
      assert params == (if s.bframes > 0 then ["bframes=" + Num(s.bframes)] else []);
      ghost var want := params;
      if s.refFrames > 0 {
        params := params + ["ref=" + Num(s.refFrames)];
      }
      assert params == want + (if s.refFrames > 0 then ["ref=" + Num(s.refFrames)] else []);
      want := params;
      if s.aqMode != AqMode.None {
        params := params + ["aq-mode=" + Num(AqModeValue(s.aqMode)), "aq-strength=" + Tenths(s.aqStrength)];
      }
      assert params == want + (if s.aqMode != AqMode.None
        then ["aq-mode=" + Num(AqModeValue(s.aqMode)), "aq-strength=" + Tenths(s.aqStrength)] else []);
      want := params;
      if s.lookahead > 0 {
        params := params + ["rc-lookahead=" + Num(s.lookahead)];
      }
      assert params == want + (if s.lookahead > 0 then ["rc-lookahead=" + Num(s.lookahead)] else []);
      assert params == X265Params(s);
      var x265: seq<string> := [];
      if params != [] {
        x265 := ["-x265-params", Join(params, ":")];
      }
      out := out + x265;
      AppendAssoc(args, done, x265);
    }

    method AddVp9Args(args: seq<string>) returns (out: seq<string>)
      ensures out == args + Vp9Args(settings)
    {
      var s := settings;
      var rc := Vp9RateControl(s);
      out := args + rc;
      ghost var done := rc;
      var speed := ["-cpu-used", Vp9CpuUsed(s.preset), "-deadline", "good", "-row-mt", "1"];
      out := out + speed;
      AppendAssoc(args, done, speed);
      done := done + speed;
      var cols: seq<string> := [];
      if s.vp9TileColumns > 0 {
        cols := ["-tile-columns", Num(s.vp9TileColumns)];
      }
      out := out + cols;
      AppendAssoc(args, done, cols);
      done := done + cols;
      var rows: seq<string> := [];
      if s.vp9TileRows > 0 {
        rows := ["-tile-rows", Num(s.vp9TileRows)];
      }
      out := out + rows;
      AppendAssoc(args, done, rows);
      done := done + rows;
      var fp: seq<string> := [];
      if s.vp9FrameParallel {
        fp := ["-frame-parallel", "1"];
      }
      out := out + fp;
      AppendAssoc(args, done, fp);
      done := done + fp;
      var altRef: seq<string> := [];
      if s.vp9AutoAltRef {
        altRef := ["-auto-alt-ref", "1"];
        if s.vp9LagInFrames > 0 {
          altRef := altRef + ["-lag-in-frames", Num(s.vp9LagInFrames)];
        }
      }
      out := out + altRef;
      AppendAssoc(args, done, altRef);
    }

    method AddLibaomAv1Args(args: seq<string>) returns (out: seq<string>)
      ensures out == args + LibaomAv1Args(settings)
    {
      var s := settings;
      var rc := LibaomRateControl(s);
      out := args + rc;
      var speed := ["-cpu-used", LibaomCpuUsed(s.preset), "-row-mt", "1"];
      out := out + speed;
      AppendAssoc(args, rc, speed);
      var tiles := ["-tiles", Num(s.av1TileColumns) + "x" + Num(s.av1TileRows)];
      out := out + tiles;
      AppendAssoc(args, rc + speed, tiles);
    }

    method AddSvtAv1Args(args: seq<string>) returns (out: seq<string>)
      ensures out == args + SvtAv1Args(settings)
    {
      var s := settings;
      var rc := SvtAv1RateControl(s);
      out := args + rc;
      ghost var done := rc;
      var preset := ["-preset", SvtAv1Preset(s.preset)];
      out := out + preset;
      AppendAssoc(args, done, preset);
      done := done + preset;
      var grain: seq<string> := [];
      if s.svtav1FilmGrain > 0 {
        var params := "film-grain=" + Num(s.svtav1FilmGrain);
        if s.svtav1FilmGrainDenoise {
          params := params + ":film-grain-denoise=1";
        }
        assert params == FilmGrainParams(s);
        grain := ["-svtav1-params", params];
      }
      out := out + grain;
      AppendAssoc(args, done, grain);
      done := done + grain;
      var tiles: seq<string> := [];
      if s.av1TileColumns > 0 || s.av1TileRows > 0 {
        tiles := ["-tile_columns", Num(s.av1TileColumns), "-tile_rows", Num(s.av1TileRows)];
      }
      out := out + tiles;
      AppendAssoc(args, done, tiles);
    }

    method AddAudioArgs(args: seq<string>) returns (out: seq<string>)
      ensures out == args + AudioArgs(settings)
    {
      match settings.audioCodec {
        case Copy => out := args + ["-c:a", "copy"];
        case Aac => out := args + ["-c:a", "aac", "-b:a", Kbps(settings.audioBitrate)];
        case Mp3 => out := args + ["-c:a", "libmp3lame", "-b:a", Kbps(settings.audioBitrate)];
        case Flac => out := args + ["-c:a", "flac"];
      }
    }
  }
}
