# Kamaitachi transcoding core in Dafny

Kamaitachi is a desktop front end for ffmpeg. The user queues video files,
picks a transcoding preset and an optional hardware encoder (NVIDIA NVENC,
Intel QSV, AMD AMF), and the program runs ffmpeg on each file, shows its
progress and explains its errors. This project models the logic at the
centre of that program and proves properties of the model:

- `preset.dfy` (module `Preset`) and `accel.dfy` (module `Accel`): the
  settings enumerations, their ffmpeg spellings, the default settings, the
  resolution table and the choice of encoder by codec and accelerator.
- `job.dfy` (module `Job`): a transcode job (`TranscodeJob`, with its
  cancel flag) and the compiler from settings to an ffmpeg command line,
  including every encoder family's rate-control and tuning options.
- `error.dfy` (module `Errors`): the classification of ffmpeg's stderr
  into error kinds, the name extractors, the user messages and suggestions.
- `hwaccel.dfy` (module `HwAccel`): hardware detection, `Auto` resolution,
  the cached encoder registry, the smoke test and the choice of an encoder
  with software fallback.
- `progress.dfy` (module `Progress`): the progress counters updated per
  frame, the shared cancel flag, the progress snapshot (fraction, remaining
  time, estimated output size) and the `H:MM:SS` clock format.
- `app.dfy` (module `App`): the queue of files (`AppState`) with adding,
  removing, clearing and re-estimating, the supported-format filter, the
  file entry and its status labels.
- `detector.dfy` (module `Detector`): parsing the `ffmpeg -version` banner
  into version, major/minor numbers and GPL flag, and the version check.

`wrappers.dfy`, `ints.dfy`, `seqs.dfy`, `text.dfy` and `paths.dfy` hold the
support the model needs: `Option`/`Result`, the unsigned integer widths of
the source (`u8`, `u32`, `u64`, saturating float-to-integer conversion),
ASCII text operations (line splitting, whitespace splitting, substring
search, lowercasing, decimal numerals) and Unix path decomposition
(`file_name`, `file_stem`, `extension`, `join`).

Operations that change state in the source are methods of classes whose
fields they update (`TranscodeJob`, `EncoderRegistry`, `ProgressFilter`,
`CancelFlag`, `AppState`). Each states the new state it leaves.
The command-line builder appends argument blocks to a growing vector, and
each `Add…Args` method's postcondition is the specification block it
appends. Processes and the file system are parameters: the stdout of
`ffmpeg -encoders`, the outcome of a smoke test, the NVIDIA driver probe,
file sizes, the metadata probe and the elapsed time.

## Model

| member | source | states |
|---|---|---|
| Preset.DefaultSettings | src/transcoder/preset.rs:103-158 | the default preset: MP4, H.264, original size, CRF 23, medium, Auto accelerator, AAC 192k, suffix `_transcoded`, B-frames 3, refs 4, GOP 250, lookahead 20, variance AQ strength 0.8 |
| Preset.AllRateControlModes | src/transcoder/preset.rs:186-193 | the listing has the four rate-control modes, each once |
| Preset.AllAqModes | src/transcoder/preset.rs:237-244 | the listing has the four AQ modes, each once |
| Preset.AllNvencTunes | src/transcoder/preset.rs:288-295 | the listing has the four NVENC tunes, each once |
| Preset.AllNvencMultipasses | src/transcoder/preset.rs:335-341 | the listing has the three NVENC multipass modes, each once |
| Preset.AllNvencBRefModes | src/transcoder/preset.rs:381-387 | the listing has the three NVENC B-frame reference modes, each once |
| Preset.AllAmfUsages | src/transcoder/preset.rs:431-438 | the listing has the four AMF usages, each once |
| Preset.AllAmfQualities | src/transcoder/preset.rs:478-480 | the listing has the three AMF quality levels, each once |
| Preset.AllX264Tunes | src/transcoder/preset.rs:544-556 | the listing has the nine x264 tunes, each once, starting with "none" |
| Preset.AllX264Profiles | src/transcoder/preset.rs:604-612 | the listing has the five x264 profiles, each once |
| Preset.AllContainerFormats | src/transcoder/preset.rs:646-648 | the listing has the two containers, each once |
| Preset.AllVideoCodecs | src/transcoder/preset.rs:701-708 | the listing has the four video codecs, each once |
| Preset.AllResolutions | src/transcoder/preset.rs:754-762 | five fixed resolutions, each once, none of them custom |
| Preset.AllVideoPresets | src/transcoder/preset.rs:799-807 | the listing has the five speed presets, each once |
| Preset.AllAudioCodecs | src/transcoder/preset.rs:835-842 | the listing has the four audio codecs, each once |
| Preset.ListingsComplete | src/transcoder/preset.rs:186-842 | every rate-control mode, AQ mode, x264 tune, container, codec, speed preset and audio codec is in its listing, and so is every resolution other than a custom size |
| Preset.EncoderListingsComplete | src/transcoder/preset.rs:288-612 | every NVENC tune, multipass mode, B-frame reference mode, AMF usage, AMF quality and x264 profile is in its listing |
| Preset.AqModeValue | src/transcoder/preset.rs:227-234 | the AQ number is at most 3, and it is 0 exactly for "none" |
| Preset.NvencTuneValue | src/transcoder/preset.rs:278-285 | the spelling is a single word that ffmpeg can take as a value |
| Preset.NvencMultipassValue | src/transcoder/preset.rs:326-332 | the spelling is a single word that ffmpeg can take as a value |
| Preset.NvencBRefModeValue | src/transcoder/preset.rs:372-378 | the spelling is a single word that ffmpeg can take as a value |
| Preset.AmfUsageValue | src/transcoder/preset.rs:421-428 | the spelling is a single word that ffmpeg can take as a value |
| Preset.AmfQualityValue | src/transcoder/preset.rs:469-475 | the spelling is a single word that ffmpeg can take as a value |
| Preset.X264TuneValue | src/transcoder/preset.rs:529-541 | no `-tune` value exactly for "none"; otherwise a single word |
| Preset.X264ProfileValue | src/transcoder/preset.rs:593-601 | the spelling is a single word that ffmpeg can take as a value |
| Preset.ContainerExtension | src/transcoder/preset.rs:630-635 | MP4 gives `mp4` and MKV gives `mkv`: three letters with no dot or slash |
| Preset.PresetName | src/transcoder/preset.rs:788-796 | the spelling is a single word that ffmpeg can take as a value |
| Preset.SpellingsInjective | src/transcoder/preset.rs:227-796 | no two values of an enumeration share an ffmpeg spelling, so the command line fixes the setting |
| Preset.Dimensions | src/transcoder/preset.rs:742-751 | custom sizes pass through; original is (0, 0); 4K is 3840x2160, 1080p 1920x1080, 720p 1280x720 and 480p 854x480, each landscape with a positive height |
| Preset.EncoderName | src/transcoder/preset.rs:672-698 | software or Auto picks the codec's software encoder; VP9 stays on libvpx except on QSV; each vendor cell names that vendor's encoder for the codec (`h264_nvenc`, `hevc_qsv`, `av1_amf`, …) |
| Preset.EncoderNameInjective | src/transcoder/preset.rs:672-698 | for a fixed accelerator, different codecs get different encoders |
| Accel.AllHwAccelTypes | src/transcoder/hwaccel.rs:43-51 | the listing has the five accelerator kinds, each once |
| Accel.AllHwAccelTypesComplete | src/transcoder/hwaccel.rs:43-51 | every accelerator kind appears in the listing |
| Job.TranscodeJob.constructor | src/transcoder/job.rs:46-54 | a new job keeps its input, output and settings, is pending and is not cancelled |
| Job.TranscodeJob.Cancel | src/transcoder/job.rs:74-81 | after cancelling, the job reports itself cancelled and nothing else about it changes |
| Job.InputStem | src/transcoder/job.rs:57-71 | the stem used for the output name is non-empty and has no slash (`output` when the input has none) |
| Job.OutputPath | src/transcoder/job.rs:57-71 | the output path is the output directory joined with the input stem plus suffix plus the container's extension, so its file name, stem and extension read back as those parts |
| Job.TranscodeJob.BuildFfmpegArgs | src/transcoder/job.rs:90-131 | the argument vector equals the command-line specification for the job's settings, paths, encoder and accelerator |
| Job.TranscodeJob.AddHwaccelArgs | src/transcoder/job.rs:134-155 | appends exactly the accelerator block to the arguments |
| Job.HwaccelArgs | src/transcoder/job.rs:134-155 | a `-hwaccel` pair is emitted exactly for the three vendor accelerators: `cuda` for NVENC, `qsv` for QSV, `d3d11va` for AMF |
| Job.TranscodeJob.AddVideoArgsWithEncoder | src/transcoder/job.rs:158-271 | appends exactly the video block: codec, optional scale, encoder options, optional GOP |
| Job.VideoArgs | src/transcoder/job.rs:158-271 | the video block starts with `-c:v` and the chosen encoder |
| Job.ScaleArgsByDimensions | src/transcoder/job.rs:171-178 | no scale filter for original size; otherwise one `-vf` whose filter is built from the resolution's dimensions |
| Job.NamedEncodersHaveFamilies | src/transcoder/job.rs:181-264 | the name-based dispatch sends every encoder the preset can name to a real family, and to the vendor family exactly when that vendor was chosen |
| Job.TranscodeJob.AddEncoderOptionArgs | src/transcoder/job.rs:181-264 | appends exactly the option block of the encoder's family |
| Job.TranscodeJob.AddVideoArgs | src/transcoder/job.rs:780-786 | the video block for the encoder the settings name, with the settings' accelerator |
| Job.TranscodeJob.AddRateControlArgs | src/transcoder/job.rs:274-310 | appends exactly the generic rate-control block (CRF, CBR, VBR or constant QP) |
| Job.RateControlLacksX265Params | src/transcoder/job.rs:274-310 | the generic rate-control block never carries `-x265-params` |
| Job.TranscodeJob.AddNvencArgs | src/transcoder/job.rs:313-386 | appends exactly the NVENC block |
| Job.TranscodeJob.AddQsvArgs | src/transcoder/job.rs:389-454 | appends exactly the QSV block |
| Job.TranscodeJob.AddAmfArgs | src/transcoder/job.rs:457-507 | appends exactly the AMF block |
| Job.TranscodeJob.AddX264Args | src/transcoder/job.rs:510-553 | appends exactly the x264 block |
| Job.TranscodeJob.AddX265Args | src/transcoder/job.rs:556-607 | appends exactly the x265 block |
| Job.X265ParamsPresence | src/transcoder/job.rs:577-606 | x265 parameters exist exactly when B-frames, refs, AQ or lookahead are set, one entry each (two for AQ) |
| Job.X265ParamsRule | src/transcoder/job.rs:556-607 | `-x265-params` appears exactly when some x265 parameter is set, and then closes the block with the colon-joined parameters |
| Job.TranscodeJob.AddVp9Args | src/transcoder/job.rs:610-681 | appends exactly the VP9 block |
| Job.TranscodeJob.AddLibaomAv1Args | src/transcoder/job.rs:684-725 | appends exactly the libaom AV1 block |
| Job.TranscodeJob.AddSvtAv1Args | src/transcoder/job.rs:728-777 | appends exactly the SVT-AV1 block |
| Job.TranscodeJob.AddAudioArgs | src/transcoder/job.rs:789-814 | appends exactly the audio block |
| Job.TenthsDenotes | src/transcoder/job.rs:545 | the AQ strength written with one decimal reads back, digits without the dot, as the stored tenths |
| Job.CommandLineHead | src/transcoder/job.rs:103-111 | the command line starts with the accelerator block, then `-i` and the input, then `-c:v` and the encoder |
| Job.CommandLineTail | src/transcoder/job.rs:116-128 | the command line ends with progress to stdout every half second, overwrite, and the output path |
| Job.CodecFlagsOnce | src/transcoder/job.rs:104-128 | `-i`, `-c:v` and `-c:a` each occur exactly once |
| Job.TailFlagsOnce | src/transcoder/job.rs:116-128 | `-progress`, `-stats_period` and `-y` each occur exactly once |
| Job.ScaleRule | src/transcoder/job.rs:171-178 | `-vf` occurs exactly when the resolution is not original, once, right after the codec, with the resolution's filter |
| Job.AudioBitrateRule | src/transcoder/job.rs:789-814 | `-b:a` occurs exactly for AAC and MP3, once, with the bitrate in kbit/s |
| Job.GopRule | src/transcoder/job.rs:267-270 | `-g` occurs exactly when the GOP size is positive, once, at the end of the video block |
| Job.HwaccelRule | src/transcoder/job.rs:134-155 | `-hwaccel` occurs once for a vendor accelerator and otherwise never, and it leads the command line |
| Errors.FiredRule | src/transcoder/error.rs:45-192 | the rule that classifies a message holds for it, and no rule earlier in the cascade does |
| Errors.FiredRuleIs | src/transcoder/error.rs:45-192 | the first rule that holds is the one that fires |
| Errors.EncoderRuleFirst | src/transcoder/error.rs:49-54 | a message naming an unknown encoder is always an unsupported-encoder error, whatever else it says |
| Errors.QuotedSpanOf | src/transcoder/error.rs:379-391 | the first single-quoted span of a line is read back exactly |
| Errors.EncoderNameIn | src/transcoder/error.rs:352-376 | the encoder name is the "unknown" placeholder or one found in some line of the message |
| Errors.ScanEncoderLine | src/transcoder/error.rs:357-372 | the per-line scan returns the quoted name or the word after `encoder`, as the specification of one line says |
| Errors.ExtractEncoderName | src/transcoder/error.rs:352-376 | the scan over lines returns the first line's encoder name, or the "unknown" placeholder |
| Errors.QuotedNameIn | src/transcoder/error.rs:379-447 | the name is the "unknown" placeholder or the quoted span of a line that mentions the keyword |
| Errors.ExtractQuotedName | src/transcoder/error.rs:379-447 | the scan over lines returns the first keyword line's quoted name |
| Errors.ExtractDecoderName | src/transcoder/error.rs:379-391 | the decoder name is the quoted span of the first line mentioning `decoder` |
| Errors.ExtractOptionName | src/transcoder/error.rs:436-447 | the option name is the quoted span of the first line mentioning `option` |
| Errors.HwaccelNameOf | src/transcoder/error.rs:396-433 | the accelerator named is one of QSV, AMF, NVENC, VAAPI or the generic label; the lemmas below state the priority: full encoder names (QSV, AMF, NVENC) before vendor keywords (same order), then VAAPI, then the generic label |
| Errors.QsvEncoderNameWins | src/transcoder/error.rs:396-407 | a message mentioning a QSV encoder always blames Intel QSV |
| Errors.AmfEncoderNameWins | src/transcoder/error.rs:399-411 | without a QSV encoder name, an AMF encoder name blames AMD AMF whatever keywords also occur |
| Errors.NvencEncoderNameWins | src/transcoder/error.rs:399-418 | without a QSV or AMF encoder name, an NVENC encoder name blames NVIDIA NVENC whatever keywords also occur |
| Errors.VendorKeywordOrder | src/transcoder/error.rs:399-427 | with no full encoder name, a QSV keyword beats AMF and NVENC keywords, and an AMF keyword beats NVENC keywords |
| Errors.VaapiAndGenericLast | src/transcoder/error.rs:396-433 | VAAPI is named exactly when only "vaapi" is recognised, and the generic label exactly when nothing is |
| Errors.TruncateMessage | src/transcoder/error.rs:501-507 | a message that fits is unchanged; a longer one keeps its prefix of the limit's length and gains `...` |
| Errors.TruncateMessageBound | src/transcoder/error.rs:501-507 | a truncated message exceeds the limit by at most three characters, and truncating it again changes nothing |
| Errors.LastErrorLine | src/transcoder/error.rs:329-342 | no line is reported exactly when no line mentions an error word; otherwise the last such line |
| Errors.Suggestion | src/transcoder/error.rs:195-349 | every kind but Unknown carries a suggestion |
| Errors.Parse | src/transcoder/error.rs:45-192 | the error keeps the raw message, takes the cascade's kind and that kind's user message, and has a suggestion exactly when the kind is known |
| Errors.KindFollowsRule | src/transcoder/error.rs:45-192 | each cascade rule yields its own kind, and the vendor rules name their vendor |
| Errors.KindNames | src/transcoder/error.rs:49-54 | the names carried by encoder, decoder and option errors are the ones the extractors find |
| Errors.LastErrorLineReported | src/transcoder/error.rs:329-342 | the reported line is the last error line, or the fixed fallback when there is none |
| Errors.UnknownKindLine | src/transcoder/error.rs:186-191 | an unclassified error reports its message's last error line |
| Errors.KindCaseInsensitive | src/transcoder/error.rs:45-192 | two messages equal up to case fire the same rule and get the same verdict |
| Errors.KindOfLowered | src/transcoder/error.rs:45-192 | lowercasing a message first does not change its verdict |
| Errors.FormatUserMessage | src/transcoder/error.rs:510-517 | the user message, followed by the tip marker and suggestion when there is one |
| Errors.PermissionDeniedExample | src/transcoder/error.rs:552-556 | "Permission denied" is a permission error |
| Errors.NvcudaExample | src/transcoder/error.rs:535-543 | "Cannot load nvcuda.dll" is NVENC unavailable |
| Errors.NoSuchFileExample | src/transcoder/error.rs:545-550 | "No such file or directory" is a missing input |
| Errors.UnknownEncoderExample | src/transcoder/error.rs:525-533 | "Unknown encoder 'h264_nvenc'" is an unsupported encoder named h264_nvenc |
| HwAccel.DetectedKindsShape | src/transcoder/hwaccel.rs:74-113 | each vendor is reported exactly when its probe succeeds, software always and last, Auto never, in order of preference without repeats |
| HwAccel.RecommendIsPreferred | src/transcoder/hwaccel.rs:74-113 | the recommendation is an available kind, not Auto, and preferred to every other available kind |
| HwAccel.Detect | src/transcoder/hwaccel.rs:74-148 | detection reports the detected kinds and recommends the most preferred of them |
| HwAccel.ResolveAuto | src/transcoder/hwaccel.rs:167-179 | a concrete choice is kept; Auto becomes the detector's recommendation; the result is never Auto |
| HwAccel.ListedEncoder | src/transcoder/hwaccel.rs:190-214 | a name read from a listing line is a single token |
| HwAccel.ListedEncoderOf | src/transcoder/hwaccel.rs:190-214 | a video line of the listing yields its second column as the encoder name |
| HwAccel.NvencListingLine | src/transcoder/hwaccel.rs:190-214 | the NVENC H.264 listing line yields `h264_nvenc` |
| HwAccel.RegisteredIff | src/transcoder/hwaccel.rs:190-214 | an encoder is registered exactly when some listing line yields it |
| HwAccel.ScanListingLine | src/transcoder/hwaccel.rs:199-210 | the per-line scan agrees with the listing-line specification |
| HwAccel.FetchAvailableEncoders | src/transcoder/hwaccel.rs:190-214 | the registry is the set of names the listing yields, and empty without a listing |
| HwAccel.EncoderRegistry.constructor | src/transcoder/hwaccel.rs:183-187 | a new registry has nothing cached |
| HwAccel.EncoderRegistry.Get | src/transcoder/hwaccel.rs:183-187 | the first call caches the fetched registry; later calls return the cached one unchanged |
| HwAccel.SmokeVerdictIsExitStatus | src/transcoder/hwaccel.rs:218-292 | the smoke test passes exactly when ffmpeg ran and exited successfully |
| HwAccel.UsableIff | src/transcoder/hwaccel.rs:218-292 | an encoder is usable exactly when it is registered and is either a known software encoder or passes the smoke test |
| HwAccel.EncoderRegistry.TestEncoderAvailability | src/transcoder/hwaccel.rs:218-292 | the answer is usability against the cached registry |
| HwAccel.FallbackEncoders | src/transcoder/hwaccel.rs:296-306 | the fallbacks start with the codec's software encoder and are all known software encoders |
| HwAccel.FirstUsable | src/transcoder/hwaccel.rs:310-343 | none exactly when no candidate is usable; otherwise the earliest usable candidate |
| HwAccel.FirstUsableIs | src/transcoder/hwaccel.rs:310-343 | a usable candidate preceded only by unusable ones is the one chosen |
| HwAccel.SelectEncoderSpec | src/transcoder/hwaccel.rs:310-343 | the requested encoder is kept when usable; otherwise software with the first usable fallback, or the codec's software encoder when nothing is usable |
| HwAccel.EncoderRegistry.GetAvailableEncoder | src/transcoder/hwaccel.rs:310-343 | the chosen encoder and accelerator are the selection over the cached registry |
| Progress.CancelFlag.constructor | src/transcoder/progress.rs:72-85 | a new cancel flag is lowered |
| Progress.ProgressFilter.constructor | src/transcoder/progress.rs:72-85 | counters start at zero, totals come from the known frame count and duration (zero when unknown), and the cancel flag is fresh and lowered |
| Progress.ProgressFilter.SetInputSize | src/transcoder/progress.rs:88-90 | only the input size changes |
| Progress.ProgressFilter.SetCurrentSize | src/transcoder/progress.rs:93-95 | only the current output size changes |
| Progress.ProgressFilter.CancelFlagHandle | src/transcoder/progress.rs:98-100 | the handle is the filter's own cancel flag, shared, not a copy |
| Progress.ProgressFilter.OnFrame | src/transcoder/progress.rs:103-108 | the frame counter advances by one (wrapping at 2^64) and the clock moves to the frame's timestamp when it has one |
| Progress.ProgressFilter.SetTotalFrames | src/transcoder/progress.rs:111-113 | only the total frame count changes |
| Progress.ProgressFilter.SetTotalDuration | src/transcoder/progress.rs:116-118 | only the total duration changes |
| Progress.ProgressFilter.Cancel | src/transcoder/progress.rs:188-190 | the shared flag is raised |
| Progress.CancelScenario | src/transcoder/progress.rs:98-195 | cancelling through a handle is seen by the filter that handed it out |
| Progress.RatioFraction | src/transcoder/progress.rs:140-150 | a done/total ratio clamped to [0, 1], zero exactly when nothing is done and one exactly when the total is reached |
| Progress.FractionSpec | src/transcoder/progress.rs:140-150 | the fraction is within [0, 1], uses time when a duration is known and frames otherwise, and is one exactly when the target is reached |
| Progress.RemainingSpec | src/transcoder/progress.rs:153-159 | remaining time is known exactly strictly between 0 and 1, is non-negative, and completes the elapsed time in proportion to the fraction |
| Progress.QuotientBounds | src/transcoder/progress.rs:162-167 | dividing a size by a fraction above 5% at most multiplies it by 20 and never shrinks it |
| Progress.EstimatedSizeSpec | src/transcoder/progress.rs:162-167 | an estimate exists exactly past 5% with some output, and lies between the current size and twenty times it |
| Progress.SnapshotSpec | src/transcoder/progress.rs:121-185 | the snapshot reports unknown totals as absent, bounds its fraction, and has remaining time and size estimates exactly under their conditions |
| Progress.ClockFields | src/transcoder/progress.rs:199-209 | hours, minutes and seconds recompose the seconds, with minutes and seconds below 60 |
| Progress.Pad2 | src/transcoder/progress.rs:199-209 | two digits whose value is the number |
| Progress.FormatDurationRoundTrip | src/transcoder/progress.rs:199-209 | reading the clock text back gives the seconds, and the hour field is present exactly from one hour on |
| App.SupportedFormatOfName | src/app.rs:93-102 | a file is accepted exactly when its lowercased extension is one of the nine video extensions |
| App.ExtensionlessUnsupported | src/app.rs:93-102 | a file without an extension is rejected |
| App.HiddenFileUnsupported | src/app.rs:93-102 | a dot-file such as `.mp4` has no extension and is rejected |
| App.LabelSpec | src/app.rs:241-263 | every status has a label, and two statuses share a label exactly when they are equal or both errors |
| App.NewEntry | src/app.rs:125-143 | a new entry is pending at zero progress with no estimate and unknown metadata, named after its file name or `unknown`, size zero when unknown |
| App.WithDefaultsSpec | src/app.rs:204-212 | defaults fill only the missing metadata fields, and filling twice changes nothing |
| App.UpdateEstimatedSizeSpec | src/app.rs:204-219 | re-estimating always gives an estimate, changes nothing else, and depends only on the defaulted metadata |
| App.MakeEntry | src/app.rs:48-64 | a queued entry is pending, at zero progress, has an estimate, and keeps unknown metadata when the probe fails |
| App.QueuedEntries | src/app.rs:48-64 | every queued entry is pending at zero progress with an estimate, for a supported file, and no more entries than paths |
| App.QueuedPaths | src/app.rs:48-64 | the queued paths are the supported paths, in order |
| App.SupportedPathsMembers | src/app.rs:48-64 | a path is queued exactly when it was given and is supported |
| App.RemoveAt | src/app.rs:67-73 | removing at a valid index drops that entry and keeps the rest in order; an invalid index changes nothing |
| App.RemoveAtMultiset | src/app.rs:67-73 | removal takes away exactly one occurrence of the removed entry |
| App.AppState.constructor | src/app.rs:48-90 | a new queue is empty |
| App.AppState.AddFiles | src/app.rs:48-64 | the queue becomes the old queue followed by the entries of the supported paths |
| App.AppState.RemoveFile | src/app.rs:67-73 | the queue loses the entry at the index when it is valid |
| App.AppState.ClearFiles | src/app.rs:76-80 | the queue becomes empty |
| App.AppState.UpdateAllEstimatedSizes | src/app.rs:83-90 | every entry is re-estimated in place, in order |
| App.AddFilesScenario | src/app.rs:48-64 | adding keeps the old entries as a prefix and appends pending entries for exactly the supported paths |
| Detector.SplitOn | src/ffmpeg/detector.rs:174-182 | splitting gives at least one piece and no piece contains the separator |
| Detector.JoinSplitOn | src/ffmpeg/detector.rs:174-182 | joining the pieces with the separator gives back the text |
| Detector.FindDigitToken | src/ffmpeg/detector.rs:167-171 | none exactly when no token starts with a digit; otherwise the first that does |
| Detector.FirstNumericWordSkips | src/ffmpeg/detector.rs:167-171 | words that do not start with a digit never change which word is taken as the version |
| Detector.VersionOfSpec | src/ffmpeg/detector.rs:167-171 | the version is the first digit-led word of the first line, or `unknown` when there is none |
| Detector.NumberField | src/ffmpeg/detector.rs:174-182 | a field reads as its decimal value, and as 0 when it is not a number |
| Detector.VersionNumbersOf | src/ffmpeg/detector.rs:174-182 | a version `a.b.…` gives major `a` and minor `b` |
| Detector.VersionNumbersOfMajor | src/ffmpeg/detector.rs:174-182 | a version without a dot gives minor 0 |
| Detector.UnknownVersionNumbers | src/ffmpeg/detector.rs:174-182 | an unknown version gives 0.0 |
| Detector.ReleaseVersionNumbers | src/ffmpeg/detector.rs:174-182 | version `7.0.1` gives major 7, minor 0 |
| Detector.ParseFfmpegOutputSpec | src/ffmpeg/detector.rs:158-208 | empty output is an error; otherwise the paths are kept, the version comes from the first line, the numbers from the version, and GPL is set exactly when `--enable-gpl` occurs |
| Detector.UnknownVersionIsZero | src/ffmpeg/detector.rs:167-182 | output whose first line has no version reports `unknown` as 0.0 |
| Detector.VersionAfterBanner | src/ffmpeg/detector.rs:167-171 | a banner `ffmpeg version V …` with a numeric V reports V |
| Detector.VersionSkipsNonNumeric | src/ffmpeg/detector.rs:167-171 | a banner whose version word is not numeric reports the first numeric word after it |
| Detector.SnapshotBuildVersion | src/ffmpeg/detector.rs:167-182 | a snapshot build's banner reports the copyright years as version, with numbers 0.0 |
| Detector.ParseBanner | src/ffmpeg/detector.rs:158-208 | a one-line release banner parses to its version and numbers |
| Detector.CheckVersionOfRelease | src/ffmpeg/detector.rs:211-213 | a release meets a minimum major version exactly when its major is at least the minimum, and then meets every lower one |

## Left out

- Floating point: `f32`/`f64` values are exact reals. Rounding, NaN and infinities are not modelled, and float-to-integer casts saturate as Rust's `as` does for finite values.
- Integer overflow: where the source could overflow a `u8` or `u32`, the model requires that it does not. Those sites are `crf + 2` for AMF and `target_bitrate * 2` for CBR.
- Job.TranscodeJob.AddAmfArgs: requires `crf + 2` to fit in `u8`, because the model does not follow the overflow past 255.
- Job.TranscodeJob.AddRateControlArgs: requires twice the target bitrate to fit in `u32`, because the model does not follow the overflow past 2^32.
- Job.TranscodeJob.AddX264Args: has the same CBR bitrate requirement as AddRateControlArgs.
- Job.TranscodeJob.AddX265Args: has the same CBR bitrate requirement as AddRateControlArgs.
- Job.CodecFlagsOnce: the counting lemmas require that the input, the output and the encoder are not themselves one of the command line's flags. Otherwise a flag can occur twice.
- Job.TailFlagsOnce: has the same requirement as Job.CodecFlagsOnce, that the input, the output and the encoder are not themselves flags.
- Job.ScaleRule: has the same requirement as Job.CodecFlagsOnce, that the input, the output and the encoder are not themselves flags.
- Job.AudioBitrateRule: has the same requirement as Job.CodecFlagsOnce, that the input, the output and the encoder are not themselves flags.
- Job.GopRule: has the same requirement as Job.CodecFlagsOnce, that the input, the output and the encoder are not themselves flags.
- Job.HwaccelRule: has the same requirement as Job.CodecFlagsOnce, that the input, the output and the encoder are not themselves flags.
- Job.TenthsDenotes: the `{:.1}` rendering of `aq_strength / 10` is modelled as the exact decimal.
- Text is ASCII: lowercasing, whitespace and lengths are per character. A character is taken to be one byte, which matters to `truncate_message`.
- `from_utf8_lossy`: process output is taken as a string.
- Paths are Unix paths with `/` separators.
- Processes, file system, clock and threads are parameters or fields:
  - the NVIDIA driver probe, the `ffmpeg -encoders` listing and the smoke-test outcome are parameters;
  - so are file sizes, the metadata probe and the elapsed time;
  - `ffprobe` discovery and running ffmpeg are not part of this model;
  - atomics and `Arc` become plain fields and a shared `CancelFlag` object;
  - `OnceLock` becomes an `Option` cache.
- Every launch is assumed to see the same answers from the parameters. The model does not capture a machine whose answers change between calls.
- `get_available_encoder` is not called inside the command-line compiler. The compiler takes the encoder and accelerator as inputs, as the job's runner supplies them.
- Dead code:
  - `resolve_auto`'s error branch is dead because detection never fails.
  - `unwrap_or("libx264")` is dead because the fallback list is never empty.
  - The `" V"` prefix test in the listing scan is dead after trimming.
- The GPU-unsupported phrases of the smoke test only choose a log message, so they are not part of the verdict.
- Errors: the encoder rule is checked first, as in the code.
- Detector: the version is taken from the first output line only, as the code does. `parse_ffmpeg_output` does not search later lines.
- UI labels are not modelled: display names of the enumerations, `audio_bitrate_options`, `format_size` and `formatted_size`.
- `estimate_compression_ratio` and `estimate_compression_ratio_advanced` are not part of this model. The ratio is a parameter of `App.UpdateEstimatedSize`.
- `VideoMetadata`, `ContentType`, `FfmpegProgressInfo` and `current_progress` are not part of this model.
  - `App.VideoMetadata` keeps only the fields the queue code reads.
  - Its default is taken to be all-unknown.
- Logging, the downloader, configuration and the user interface are not part of this model.
