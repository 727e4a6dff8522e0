/**
 * Transcode settings: the enumerations a user picks from, the ffmpeg
 * spelling of each value, the default settings, and the mapping from a
 * codec and an acceleration kind to an ffmpeg encoder name.
 */
module Preset {
  import W = Wrappers
  import opened Ints
  import opened Seqs
  import opened Text
  import opened Accel

  datatype RateControlMode = Crf | Cbr | Vbr | Cqp
  datatype AqMode = None | Variance | AutoVariance | AutoVarianceBiased
  datatype NvencTune = HighQuality | LowLatency | UltraLowLatency | Lossless
  datatype NvencMultipass = Disabled | Qres | Fullres
  datatype NvencBRefMode = Disabled | Each | Middle
  datatype AmfUsage = Transcoding | UltraLowLatency | LowLatency | Webcam
  datatype AmfQuality = Speed | Balanced | Quality
  datatype X264Tune = None | Film | Animation | Grain | StillImage | Psnr | Ssim | FastDecode | ZeroLatency
  datatype X264Profile = Baseline | Main | High | High10 | High444
  datatype ContainerFormat = Mp4 | Mkv
  datatype VideoCodec = H264 | H265 | Vp9 | Av1
  datatype VideoResolution = Original | Uhd4K | Fhd1080 | Hd720 | Sd480 | Custom(width: u32, height: u32)
  datatype VideoPreset = Ultrafast | Fast | Medium | Slow | Veryslow
  datatype AudioCodec = Aac | Mp3 | Flac | Copy

  /** Everything a user sets for one transcode. */
  datatype TranscodeSettings = TranscodeSettings(
    container: ContainerFormat,
    videoCodec: VideoCodec,
    resolution: VideoResolution,
    crf: u8,
    preset: VideoPreset,
    hwaccel: HwAccelType,
    audioCodec: AudioCodec,
    audioBitrate: u32,
    outputDir: W.Option<string>,
    outputSuffix: string,
    rateControl: RateControlMode,
    targetBitrate: u32,
    maxBitrate: u32,
    bframes: u8,
    refFrames: u8,
    gopSize: u32,
    lookahead: u8,
    aqMode: AqMode,
    aqStrength: u8,
    nvencTune: NvencTune,
    nvencMultipass: NvencMultipass,
    nvencBRefMode: NvencBRefMode,
    qsvLaDepth: u8,
    qsvAdaptiveI: bool,
    qsvAdaptiveB: bool,
    amfUsage: AmfUsage,
    amfQuality: AmfQuality,
    x264Tune: X264Tune,
    x264Profile: X264Profile,
    vp9TileColumns: u8,
    vp9TileRows: u8,
    vp9FrameParallel: bool,
    vp9AutoAltRef: bool,
    vp9LagInFrames: u8,
    svtav1FilmGrain: u8,
    svtav1FilmGrainDenoise: bool,
    av1TileColumns: u8,
    av1TileRows: u8)

  /** The settings a fresh installation starts from. */
  function DefaultSettings(): (s: TranscodeSettings)
    ensures s.container == Mp4 && s.videoCodec == H264 && s.resolution == Original
    ensures s.crf == 23 && s.preset == Medium && s.hwaccel == Auto
    ensures s.audioCodec == Aac && s.audioBitrate == 192
    ensures s.outputDir == W.None && s.outputSuffix == "_transcoded"
    ensures s.rateControl == Crf && s.targetBitrate == 5000 && s.maxBitrate == 10000
    ensures s.bframes == 3 && s.refFrames == 4 && s.gopSize == 250 && s.lookahead == 20
    ensures s.aqMode == Variance && s.aqStrength == 8
  {
    TranscodeSettings(
      Mp4, H264, Original, 23, Medium, Auto, Aac, 192, W.None, "_transcoded",
      Crf, 5000, 10000, 3, 4, 250, 20, Variance, 8,
      HighQuality, Qres, NvencBRefMode.Each,
      40, true, true,
      Transcoding, Balanced,
      X264Tune.None, High,
      2, 1, true, true, 25,
      0, false, 2, 2)
  }

  // ---------------------------------------------------------------------
  // Listings offered by the settings screen
  // ---------------------------------------------------------------------

  function AllRateControlModes(): (r: seq<RateControlMode>)
    ensures |r| == 4 && NoDuplicates(r)
  {
    [Crf, Cbr, Vbr, Cqp]
  }

  function AllAqModes(): (r: seq<AqMode>)
    ensures |r| == 4 && NoDuplicates(r)
  {
    [AqMode.None, Variance, AutoVariance, AutoVarianceBiased]
  }

  function AllNvencTunes(): (r: seq<NvencTune>)
    ensures |r| == 4 && NoDuplicates(r)
  {
    [HighQuality, NvencTune.LowLatency, NvencTune.UltraLowLatency, Lossless]
  }

  function AllNvencMultipasses(): (r: seq<NvencMultipass>)
    ensures |r| == 3 && NoDuplicates(r)
  {
    [NvencMultipass.Disabled, Qres, Fullres]
  }

  function AllNvencBRefModes(): (r: seq<NvencBRefMode>)
    ensures |r| == 3 && NoDuplicates(r)
  {
    [NvencBRefMode.Disabled, Each, Middle]
  }

  function AllAmfUsages(): (r: seq<AmfUsage>)
    ensures |r| == 4 && NoDuplicates(r)
  {
    [Transcoding, AmfUsage.UltraLowLatency, AmfUsage.LowLatency, Webcam]
  }

  function AllAmfQualities(): (r: seq<AmfQuality>)
    ensures |r| == 3 && NoDuplicates(r)
  {
    [Speed, Balanced, Quality]
  }

  function AllX264Tunes(): (r: seq<X264Tune>)
    ensures |r| == 9 && NoDuplicates(r) && r[0] == X264Tune.None
  {
    [X264Tune.None, Film, Animation, Grain, StillImage, Psnr, Ssim, FastDecode, ZeroLatency]
  }

  function AllX264Profiles(): (r: seq<X264Profile>)
    ensures |r| == 5 && NoDuplicates(r)
  {
    [Baseline, Main, High, High10, High444]
  }

  function AllContainerFormats(): (r: seq<ContainerFormat>)
    ensures |r| == 2 && NoDuplicates(r)
  {
    [Mp4, Mkv]
  }

  function AllVideoCodecs(): (r: seq<VideoCodec>)
    ensures |r| == 4 && NoDuplicates(r)
  {
    [H264, H265, Vp9, Av1]
  }

  /** The resolution presets; a custom size is entered separately. */
  function AllResolutions(): (r: seq<VideoResolution>)
    ensures |r| == 5 && NoDuplicates(r)
    ensures forall k :: 0 <= k < |r| ==> !r[k].Custom?
  {
    [Original, Uhd4K, Fhd1080, Hd720, Sd480]
  }

  function AllVideoPresets(): (r: seq<VideoPreset>)
    ensures |r| == 5 && NoDuplicates(r)
  {
    [Ultrafast, Fast, Medium, Slow, Veryslow]
  }

  function AllAudioCodecs(): (r: seq<AudioCodec>)
    ensures |r| == 4 && NoDuplicates(r)
  {
    [Aac, Mp3, Flac, Copy]
  }

  /** Every value of each enumeration is offered; of resolutions, every preset size. */
  lemma ListingsComplete(m: RateControlMode, a: AqMode, t: X264Tune, c: VideoCodec, p: VideoPreset, ac: AudioCodec,
                         res: VideoResolution, f: ContainerFormat)
    ensures m in AllRateControlModes() && a in AllAqModes() && t in AllX264Tunes()
    ensures c in AllVideoCodecs() && p in AllVideoPresets() && ac in AllAudioCodecs()
    ensures !res.Custom? ==> res in AllResolutions()
    ensures f in AllContainerFormats()
  {
  }

  /** Every value of each encoder-specific enumeration is offered. */
  lemma EncoderListingsComplete(nt: NvencTune, nm: NvencMultipass, nb: NvencBRefMode,
                                au: AmfUsage, aq: AmfQuality, xp: X264Profile)
    ensures nt in AllNvencTunes() && nm in AllNvencMultipasses() && nb in AllNvencBRefModes()
    ensures au in AllAmfUsages() && aq in AllAmfQualities() && xp in AllX264Profiles()
  {
  }

  // ---------------------------------------------------------------------
  // ffmpeg spellings
  // ---------------------------------------------------------------------

  /** The numeric `aq-mode` value; zero exactly when AQ is off. */
  function AqModeValue(m: AqMode): (r: nat)
    ensures r <= 3
    ensures r == 0 <==> m == AqMode.None
  {
    match m
    case None => 0
    case Variance => 1
    case AutoVariance => 2
    case AutoVarianceBiased => 3
  }

  function NvencTuneValue(t: NvencTune): (r: string)
    ensures IsBareWord(r)
  {
    match t
    case HighQuality => "hq"
    case LowLatency => "ll"
    case UltraLowLatency => "ull"
    case Lossless => "lossless"
  }

  function NvencMultipassValue(m: NvencMultipass): (r: string)
    ensures IsBareWord(r)
  {
    match m
    case Disabled => "disabled"
    case Qres => "qres"
    case Fullres => "fullres"
  }

  function NvencBRefModeValue(m: NvencBRefMode): (r: string)
    ensures IsBareWord(r)
  {
    match m
    case Disabled => "disabled"
    case Each => "each"
    case Middle => "middle"
  }

  function AmfUsageValue(u: AmfUsage): (r: string)
    ensures IsBareWord(r)
  {
    match u
    case Transcoding => "transcoding"
    case UltraLowLatency => "ultralowlatency"
    case LowLatency => "lowlatency"
    case Webcam => "webcam"
  }

  function AmfQualityValue(q: AmfQuality): (r: string)
    ensures IsBareWord(r)
  {
    match q
    case Speed => "speed"
    case Balanced => "balanced"
    case Quality => "quality"
  }

  /** The `-tune` value for x264; `None` asks for no tuning. */
  function X264TuneValue(t: X264Tune): (r: W.Option<string>)
    ensures r.None? <==> t == X264Tune.None
    ensures r.Some? ==> IsBareWord(r.value)
  {
    match t
    case None => W.None
    case Film => W.Some("film")
    case Animation => W.Some("animation")
    case Grain => W.Some("grain")
    case StillImage => W.Some("stillimage")
    case Psnr => W.Some("psnr")
    case Ssim => W.Some("ssim")
    case FastDecode => W.Some("fastdecode")
    case ZeroLatency => W.Some("zerolatency")
  }

  function X264ProfileValue(p: X264Profile): (r: string)
    ensures IsBareWord(r)
  {
    match p
    case Baseline => "baseline"
    case Main => "main"
    case High => "high"
    case High10 => "high10"
    case High444 => "high444"
  }

  /** The file extension of a container; three letters, no dot, no slash. */
  function ContainerExtension(c: ContainerFormat): (r: string)
    ensures |r| == 3 && '.' !in r && '/' !in r
    ensures c == Mp4 ==> r == "mp4"
    ensures c == Mkv ==> r == "mkv"
  {
    match c
    case Mp4 => "mp4"
    case Mkv => "mkv"
  }

  function PresetName(p: VideoPreset): (r: string)
    ensures IsBareWord(r)
  {
    match p
    case Ultrafast => "ultrafast"
    case Fast => "fast"
    case Medium => "medium"
    case Slow => "slow"
    case Veryslow => "veryslow"
  }

  /** Distinct values get distinct spellings, so ffmpeg can tell them apart. */
  lemma SpellingsInjective()
    ensures forall a, b :: NvencTuneValue(a) == NvencTuneValue(b) ==> a == b
    ensures forall a, b :: NvencMultipassValue(a) == NvencMultipassValue(b) ==> a == b
    ensures forall a, b :: NvencBRefModeValue(a) == NvencBRefModeValue(b) ==> a == b
    ensures forall a, b :: AmfUsageValue(a) == AmfUsageValue(b) ==> a == b
    ensures forall a, b :: AmfQualityValue(a) == AmfQualityValue(b) ==> a == b
    ensures forall a, b :: X264TuneValue(a) == X264TuneValue(b) ==> a == b
    ensures forall a, b :: X264ProfileValue(a) == X264ProfileValue(b) ==> a == b
    ensures forall a, b :: ContainerExtension(a) == ContainerExtension(b) ==> a == b
    ensures forall a, b :: PresetName(a) == PresetName(b) ==> a == b
    ensures forall a, b :: AqModeValue(a) == AqModeValue(b) ==> a == b
  {
  }

  /** `(width, height)` of a resolution; `(0, 0)` for the original size. */
  function Dimensions(r: VideoResolution): (d: (u32, u32))
    ensures r.Custom? ==> d == (r.width, r.height)
    ensures r == Original ==> d == (0, 0)
    ensures !r.Custom? && r != Original ==> 0 < d.1 < d.0
    ensures r == Uhd4K ==> d == (3840, 2160)
    ensures r == Fhd1080 ==> d == (1920, 1080)
    ensures r == Hd720 ==> d == (1280, 720)
    ensures r == Sd480 ==> d == (854, 480)
  {
    match r
    case Original => (0, 0)
    case Uhd4K => (3840, 2160)
    case Fhd1080 => (1920, 1080)
    case Hd720 => (1280, 720)
    case Sd480 => (854, 480)
    case Custom(w, h) => (w, h)
  }

  /**
   * The ffmpeg encoder for a codec on an acceleration kind. NVENC and AMF
   * have no VP9 encoder and fall back to libvpx-vp9; `Auto` and `Software`
   * pick the software encoder.
   */
  function EncoderName(c: VideoCodec, h: HwAccelType): (r: string)
    ensures !IsVendor(h) ==> r == SoftwareEncoderName(c)
    ensures c == Vp9 && h != Qsv ==> r == "libvpx-vp9"
    ensures h == Nvenc && c != Vp9 ==> r in {"h264_nvenc", "hevc_nvenc", "av1_nvenc"}
    ensures h == Qsv ==> r in {"h264_qsv", "hevc_qsv", "av1_qsv", "vp9_qsv"}
    ensures h == Amf && c != Vp9 ==> r in {"h264_amf", "hevc_amf", "av1_amf"}
    ensures c == H264 && h == Nvenc ==> r == "h264_nvenc"
    ensures c == H265 && h == Nvenc ==> r == "hevc_nvenc"
    ensures c == Av1 && h == Nvenc ==> r == "av1_nvenc"
    ensures c == H264 && h == Qsv ==> r == "h264_qsv"
    ensures c == H265 && h == Qsv ==> r == "hevc_qsv"
    ensures c == Av1 && h == Qsv ==> r == "av1_qsv"
    ensures c == Vp9 && h == Qsv ==> r == "vp9_qsv"
    ensures c == H264 && h == Amf ==> r == "h264_amf"
    ensures c == H265 && h == Amf ==> r == "hevc_amf"
    ensures c == Av1 && h == Amf ==> r == "av1_amf"
  {
    match (c, h)
    case (H264, Nvenc) => "h264_nvenc"
    case (H265, Nvenc) => "hevc_nvenc"
    case (Av1, Nvenc) => "av1_nvenc"
    case (Vp9, Nvenc) => "libvpx-vp9"
    case (H264, Qsv) => "h264_qsv"
    case (H265, Qsv) => "hevc_qsv"
    case (Av1, Qsv) => "av1_qsv"
    case (Vp9, Qsv) => "vp9_qsv"
    case (H264, Amf) => "h264_amf"
    case (H265, Amf) => "hevc_amf"
    case (Av1, Amf) => "av1_amf"
    case (Vp9, Amf) => "libvpx-vp9"
    case (H264, _) => "libx264"
    case (H265, _) => "libx265"
    case (Vp9, _) => "libvpx-vp9"
    case (Av1, _) => "libsvtav1"
  }

  /** The software encoder of each codec. */
  function SoftwareEncoderName(c: VideoCodec): string
  {
    match c
    case H264 => "libx264"
    case H265 => "libx265"
    case Vp9 => "libvpx-vp9"
    case Av1 => "libsvtav1"
  }

  /** Different codecs never share an encoder on the same acceleration kind. */
  lemma EncoderNameInjective(c1: VideoCodec, c2: VideoCodec, h: HwAccelType)
    requires EncoderName(c1, h) == EncoderName(c2, h)
    ensures c1 == c2
  {
  }
}
