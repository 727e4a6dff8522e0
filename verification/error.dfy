/**
 * Reading ffmpeg's stderr: an ordered, case-insensitive cascade of
 * substring rules picks one error kind; helpers pull the offending
 * encoder, decoder or option name out of the original text; the result
 * carries a user message, an optional suggestion and the raw text.
 */
module Errors {
  import opened Wrappers
  import opened Text

  datatype FfmpegErrorKind =
    | EncoderNotSupported(encoder: string)
    | DecoderNotSupported(decoder: string)
    | HwAccelNotAvailable(hwaccel: string)
    | InputNotFound
    | InputCorrupted
    | OutputWriteError
    | DiskFull
    | OutOfMemory
    | PermissionDenied
    | InvalidCodecOption(option: string)
    | Unknown(line: string)

  datatype FfmpegError = FfmpegError(
    kind: FfmpegErrorKind,
    userMessage: string,
    suggestion: Option<string>,
    rawMessage: string)

  /** What an extractor returns when it finds no name. */
  const UnknownName := "不明"

  /** The Unknown kind's line when no line of stderr looks like an error. */
  const DefaultErrorLine := "変換中にエラーが発生しました"

  /** The fallback label of the acceleration-name extractor. */
  const GenericHwName := "ハードウェアアクセラレーション"

  /** Put between the user message and the suggestion. */
  const TipMarker := "\n\n💡 "

  // ---------------------------------------------------------------------
  // The rule cascade
  // ---------------------------------------------------------------------

  /** One `if` of the classifier, named after the kind it yields. */
  datatype Rule =
    | EncoderRule | QsvRule | NvencRule | AmfRule | GenericHwRule
    | DecoderRule | InputNotFoundRule | InputCorruptedRule | PermissionRule
    | DiskFullRule | OutputRule | MemoryRule | OptionRule | UnknownRule

  /** The order in which the classifier tries its rules. */
  const Cascade: seq<Rule> := [
    EncoderRule, QsvRule, NvencRule, AmfRule, GenericHwRule,
    DecoderRule, InputNotFoundRule, InputCorruptedRule, PermissionRule,
    DiskFullRule, OutputRule, MemoryRule, OptionRule, UnknownRule]

  /** A rule's position in `Cascade`. */
  function Rank(r: Rule): (n: nat)
    ensures n < |Cascade| && Cascade[n] == r
  {
    match r
    case EncoderRule => 0
    case QsvRule => 1
    case NvencRule => 2
    case AmfRule => 3
    case GenericHwRule => 4
    case DecoderRule => 5
    case InputNotFoundRule => 6
    case InputCorruptedRule => 7
    case PermissionRule => 8
    case DiskFullRule => 9
    case OutputRule => 10
    case MemoryRule => 11
    case OptionRule => 12
    case UnknownRule => 13
  }

  /** `error`, `failed` or `not found`: the failure words of the vendor rules. */
  predicate FailureWord(l: string)
  {
    Contains(l, "error") || Contains(l, "failed") || Contains(l, "not found")
  }

  /** A vendor keyword of the generic acceleration rule. */
  predicate HwKeyword(l: string)
  {
    Contains(l, "nvenc") || Contains(l, "qsv") || Contains(l, "amf")
    || Contains(l, "cuda") || Contains(l, "d3d11") || Contains(l, "vaapi")
  }

  /** A failure phrase of the generic acceleration rule. */
  predicate HwFailure(l: string)
  {
    Contains(l, "cannot load") || Contains(l, "failed to") || Contains(l, "not found")
    || Contains(l, "unavailable") || Contains(l, "no capable devices")
  }

  /** The condition of each rule, over the lower-cased stderr `l`. */
  predicate RuleHolds(r: Rule, l: string)
  {
    match r
    case EncoderRule =>
      Contains(l, "unknown encoder")
      || (Contains(l, "encoder") && Contains(l, "not found"))
      || Contains(l, "no such encoder")
    case QsvRule =>
      Contains(l, "no qsv-supporting device")
      || (Contains(l, "device creation failed") && Contains(l, "qsv"))
      || (Contains(l, "mfx") && (Contains(l, "error") || Contains(l, "failed")))
      || (Contains(l, "h264_qsv") && FailureWord(l))
      || (Contains(l, "hevc_qsv") && FailureWord(l))
      || (Contains(l, "av1_qsv") && FailureWord(l))
      || (Contains(l, "libmfx") && Contains(l, "not found"))
      || (Contains(l, "qsv") && Contains(l, "init"))
    case NvencRule =>
      Contains(l, "no nvenc capable devices found")
      || Contains(l, "cannot load nvcuda.dll")
      || Contains(l, "cannot load nvencodeapi")
      || (Contains(l, "h264_nvenc") && FailureWord(l))
      || (Contains(l, "hevc_nvenc") && FailureWord(l))
    case AmfRule =>
      Contains(l, "amf failed")
      || Contains(l, "no amf capable device")
      || (Contains(l, "h264_amf") && FailureWord(l))
      || (Contains(l, "hevc_amf") && FailureWord(l))
    case GenericHwRule => HwKeyword(l) && HwFailure(l)
    case DecoderRule =>
      (Contains(l, "decoder") && Contains(l, "not found")) || Contains(l, "unknown decoder")
    case InputNotFoundRule =>
      Contains(l, "no such file") || Contains(l, "does not exist") || Contains(l, "file not found")
    case InputCorruptedRule =>
      Contains(l, "invalid data found") || Contains(l, "corrupt") || Contains(l, "moov atom not found")
      || (Contains(l, "end of file") && Contains(l, "invalid"))
    case PermissionRule => Contains(l, "permission denied") || Contains(l, "access denied")
    case DiskFullRule =>
      Contains(l, "no space left") || Contains(l, "disk full") || Contains(l, "not enough space")
    case OutputRule => Contains(l, "cannot open") && (Contains(l, "output") || Contains(l, "writing"))
    case MemoryRule =>
      Contains(l, "out of memory") || Contains(l, "memory allocation failed") || Contains(l, "cannot allocate")
    case OptionRule =>
      (Contains(l, "option") && Contains(l, "not found"))
      || Contains(l, "unrecognized option") || Contains(l, "invalid option")
    case UnknownRule => true
  }

  /** Rank and position in the cascade are inverse to each other. */
  lemma CascadeRank(i: nat)
    requires i < |Cascade|
    ensures Rank(Cascade[i]) == i
  {
    if i < 7 {
      assert i == 0 || i == 1 || i == 2 || i == 3 || i == 4 || i == 5 || i == 6;
    } else {
      assert i == 7 || i == 8 || i == 9 || i == 10 || i == 11 || i == 12 || i == 13;
    }
  }

  /** The first true position from `i` on, given that the last one is true. */
  function {:induction false} FirstTrue(b: seq<bool>, i: nat): (n: nat)
    requires i < |b| && b[|b| - 1]
    ensures i <= n < |b| && b[n]
    ensures forall k | i <= k < n :: !b[k]
    decreases |b| - i
  {
    if b[i] then i else FirstTrue(b, i + 1)
  }

  /** Which rules of the cascade hold on `l`, in cascade order. */
  function Verdicts(l: string): (v: seq<bool>)
    ensures |v| == |Cascade| && v[|v| - 1]
    ensures forall k | 0 <= k < |Cascade| :: v[k] == RuleHolds(Cascade[k], l)
  {
    seq(|Cascade|, k requires 0 <= k < |Cascade| => RuleHolds(Cascade[k], l))
  }

  /**
   * The rule the classifier fires on lower-cased text `l`: one that holds,
   * with no rule before it in the cascade holding.
   */
  function FiredRule(l: string): (r: Rule)
    ensures RuleHolds(r, l)
    ensures forall k | 0 <= k < Rank(r) :: !RuleHolds(Cascade[k], l)
  {
    var n := FirstTrue(Verdicts(l), 0);
    CascadeRank(n);
    Cascade[n]
  }

  /** Whichever rule holds bounds the fired rule's rank from above. */
  lemma FiredRuleNoLaterThan(l: string, r: Rule)
    requires RuleHolds(r, l)
    ensures Rank(FiredRule(l)) <= Rank(r)
  {
    assert Cascade[Rank(r)] == r;
  }

  /** A rule that holds while every earlier rule fails is the one fired. */
  lemma FiredRuleIs(l: string, r: Rule)
    requires RuleHolds(r, l)
    requires forall k | 0 <= k < Rank(r) :: !RuleHolds(Cascade[k], l)
    ensures FiredRule(l) == r
  {
    var f := FiredRule(l);
    FiredRuleNoLaterThan(l, r);
    assert Cascade[Rank(f)] == f;
  }

  /** The encoder rule is tried first: its keywords decide at once. */
  lemma EncoderRuleFirst(l: string)
    requires Contains(l, "unknown encoder") || Contains(l, "no such encoder")
    ensures FiredRule(l) == EncoderRule
  {
    FiredRuleNoLaterThan(l, EncoderRule);
  }

  // ---------------------------------------------------------------------
  // Name extraction
  // ---------------------------------------------------------------------

  /** `v` sits between the quote at `k`, the first of the line, and the next one. */
  predicate QuotedAt(line: string, k: nat, v: string)
  {
    k + |v| + 1 < |line| && line[k] == '\'' && '\'' !in line[..k]
    && line[k + 1..k + 1 + |v|] == v && line[k + 1 + |v|] == '\''
  }

  /** The text between the first two single quotes of `line`, if it has two. */
  function QuotedSpan(line: string): (r: Option<string>)
    ensures r.Some? ==> '\'' !in r.value
    ensures r.Some? ==> exists k: nat :: QuotedAt(line, k, r.value)
    ensures r.None? <==> '\'' !in line || (IndexOf(line, '\'').Some? && '\'' !in line[IndexOf(line, '\'').value + 1..])
  {
    match IndexOf(line, '\'')
    case None => None
    case Some(start) =>
      var rest := line[start + 1..];
      match IndexOf(rest, '\'')
      case None => None
      case Some(end) =>
        assert line[start] == '\'' && rest[end] == '\'';
        assert rest[..end] == line[start + 1..start + 1 + end];
        assert QuotedAt(line, start, rest[..end]);
        Some(rest[..end])
  }

  /** The span between the first two quotes of a line built around one. */
  lemma QuotedSpanOf(a: string, name: string, b: string)
    requires '\'' !in a && '\'' !in name
    ensures QuotedSpan(a + "'" + name + "'" + b) == Some(name)
  {
    var line := a + "'" + name + "'" + b;
    assert line[..|a|] == a;
    IndexOfIs(line, '\'', |a|);
    var rest := line[|a| + 1..];
    assert rest[..|name|] == name && rest[|name|] == '\'';
    IndexOfIs(rest, '\'', |name|);
    assert rest[..|name|] == name;
  }

  /** The bare word after the first `encoder` token that is neither empty nor `not`. */
  function WordAfterEncoder(words: seq<string>, i: nat): (r: Option<string>)
    ensures r.Some? ==> exists j :: i <= j && j + 1 < |words| && Lower(words[j]) == "encoder"
                                   && r.value == TrimChars(words[j + 1], '\'', '"')
    ensures r.Some? ==> r.value != [] && r.value != "not"
    decreases |words| - i
  {
    if i >= |words| then None
    else if Lower(words[i]) == "encoder" && i + 1 < |words|
            && TrimChars(words[i + 1], '\'', '"') != [] && TrimChars(words[i + 1], '\'', '"') != "not"
    then Some(TrimChars(words[i + 1], '\'', '"'))
    else WordAfterEncoder(words, i + 1)
  }

  /** The encoder name one line offers: a quoted span, else the word after `encoder`. */
  function EncoderNameInLine(line: string): Option<string>
  {
    if !Contains(Lower(line), "encoder") then None
    else if QuotedSpan(line).Some? then QuotedSpan(line)
    else WordAfterEncoder(SplitWhitespace(line), 0)
  }

  /** The encoder name of the first line offering one, else `不明`. */
  function EncoderNameIn(lines: seq<string>): (r: string)
    ensures r == UnknownName || exists k | 0 <= k < |lines| :: EncoderNameInLine(lines[k]) == Some(r)
    decreases |lines|
  {
    if lines == [] then UnknownName
    else match EncoderNameInLine(lines[0])
      case Some(n) => n
      case None =>
        var r := EncoderNameIn(lines[1..]);
        assert r != UnknownName ==> exists k | 1 <= k < |lines| :: EncoderNameInLine(lines[k]) == Some(r);
        r
  }

  /** One step of the scan: a line offering a name decides, otherwise the rest does. */
  lemma EncoderNameInStep(lines: seq<string>, i: nat)
    requires i < |lines|
    ensures EncoderNameIn(lines[i..]) == EncoderNameInLine(lines[i]).GetOr(EncoderNameIn(lines[i + 1..]))
  {
    assert lines[i..][0] == lines[i];
    assert lines[i..][1..] == lines[i + 1..];
  }

  /** The body of the scan for one line: the quoted span, else the word after `encoder`. */
  method ScanEncoderLine(line: string) returns (name: Option<string>)
    ensures name == EncoderNameInLine(line)
  {
    if !Contains(Lower(line), "encoder") {
      return None;
    }
    var start := IndexOf(line, '\'');
    if start.Some? {
      var rest := line[start.value + 1..];
      var end := IndexOf(rest, '\'');
      if end.Some? {
        return Some(rest[..end.value]);
      }
    }
    var words := SplitWhitespace(line);
    var j := 0;
    while j < |words|
      invariant 0 <= j <= |words|
      invariant WordAfterEncoder(words, j) == WordAfterEncoder(words, 0)
    {
      if Lower(words[j]) == "encoder" && j + 1 < |words| {
        var candidate := TrimChars(words[j + 1], '\'', '"');
        if candidate != [] && candidate != "not" {
          return Some(candidate);
        }
      }
      j := j + 1;
    }
    return None;
  }

  /** `extract_encoder_name`: scans the lines of stderr, returning early on a name. */
  method ExtractEncoderName(stderr: string) returns (name: string)
    ensures name == EncoderNameIn(Lines(stderr))
  {
    var lines := Lines(stderr);
    var i := 0;
    while i < |lines|
      invariant 0 <= i <= |lines|
      invariant EncoderNameIn(lines[i..]) == EncoderNameIn(lines)
    {
      EncoderNameInStep(lines, i);
      var found := ScanEncoderLine(lines[i]);
      if found.Some? {
        return found.value;
      }
      i := i + 1;
    }
    assert lines[i..] == [];
    name := UnknownName;
  }

  /** The quoted span of the first line mentioning `keyword` that has one, else `不明`. */
  function QuotedNameIn(lines: seq<string>, keyword: string): (r: string)
    ensures r == UnknownName
            || exists k | 0 <= k < |lines| :: Contains(Lower(lines[k]), keyword) && QuotedSpan(lines[k]) == Some(r)
    decreases |lines|
  {
    if lines == [] then UnknownName
    else if Contains(Lower(lines[0]), keyword) && QuotedSpan(lines[0]).Some? then QuotedSpan(lines[0]).value
    else
      var r := QuotedNameIn(lines[1..], keyword);
      assert r != UnknownName ==>
        exists k | 1 <= k < |lines| :: Contains(Lower(lines[k]), keyword) && QuotedSpan(lines[k]) == Some(r);
      r
  }

  /**
   * The loop shared by `extract_decoder_name` (keyword `decoder`) and
   * `extract_option_name` (keyword `option`).
   */
  method ExtractQuotedName(stderr: string, keyword: string) returns (name: string)
    ensures name == QuotedNameIn(Lines(stderr), keyword)
  {
    var lines := Lines(stderr);
    var i := 0;
    while i < |lines|
      invariant 0 <= i <= |lines|
      invariant QuotedNameIn(lines[i..], keyword) == QuotedNameIn(lines, keyword)
    {
      var line := lines[i];
      assert lines[i..][0] == line && lines[i..][1..] == lines[i + 1..];
      if Contains(Lower(line), keyword) {
        var start := IndexOf(line, '\'');
        if start.Some? {
          var rest := line[start.value + 1..];
          var end := IndexOf(rest, '\'');
          if end.Some? {
            return rest[..end.value];
          }
        }
      }
      i := i + 1;
    }
    assert lines[i..] == [];
    name := UnknownName;
  }

  method ExtractDecoderName(stderr: string) returns (name: string)
    ensures name == QuotedNameIn(Lines(stderr), "decoder")
  {
    name := ExtractQuotedName(stderr, "decoder");
  }

  method ExtractOptionName(stderr: string) returns (name: string)
    ensures name == QuotedNameIn(Lines(stderr), "option")
  {
    name := ExtractQuotedName(stderr, "option");
  }

  /** A full QSV encoder name occurs in the lowercased text `l`. */
  predicate QsvEncoderIn(l: string)
  {
    Contains(l, "h264_qsv") || Contains(l, "hevc_qsv") || Contains(l, "av1_qsv") || Contains(l, "vp9_qsv")
  }

  /** A full AMF encoder name occurs in `l`. */
  predicate AmfEncoderIn(l: string)
  {
    Contains(l, "h264_amf") || Contains(l, "hevc_amf") || Contains(l, "av1_amf")
  }

  /** A full NVENC encoder name occurs in `l`. */
  predicate NvencEncoderIn(l: string)
  {
    Contains(l, "h264_nvenc") || Contains(l, "hevc_nvenc") || Contains(l, "av1_nvenc")
  }

  /** Some full encoder name of a vendor occurs in `l`. */
  predicate VendorEncoderIn(l: string)
  {
    QsvEncoderIn(l) || AmfEncoderIn(l) || NvencEncoderIn(l)
  }

  /** A QSV keyword occurs in `l`. */
  predicate QsvKeywordIn(l: string)
  {
    Contains(l, "qsv") || Contains(l, "quick sync") || Contains(l, "mfx")
  }

  /** An AMF keyword occurs in `l`. */
  predicate AmfKeywordIn(l: string)
  {
    Contains(l, "amf") || Contains(l, "advanced media framework")
  }

  /** An NVENC keyword occurs in `l`. */
  predicate NvencKeywordIn(l: string)
  {
    Contains(l, "nvenc") || Contains(l, "cuda") || Contains(l, "nvcuda")
  }

  /**
   * `extract_hwaccel_name`: full encoder names first (QSV, then AMF, then
   * NVENC), then vendor keywords in the same order, then VAAPI, then the
   * generic label. The lemmas below state each step of that priority.
   */
  function HwaccelNameOf(stderr: string): (r: string)
    ensures r in {"Intel QSV", "AMD AMF", "NVIDIA NVENC", "VAAPI", GenericHwName}
  {
    var l := Lower(stderr);
    if QsvEncoderIn(l) then "Intel QSV"
    else if AmfEncoderIn(l) then "AMD AMF"
    else if NvencEncoderIn(l) then "NVIDIA NVENC"
    else if QsvKeywordIn(l) then "Intel QSV"
    else if AmfKeywordIn(l) then "AMD AMF"
    else if NvencKeywordIn(l) then "NVIDIA NVENC"
    else if Contains(l, "vaapi") then "VAAPI"
    else GenericHwName
  }

  /**
   * A full QSV encoder name decides the vendor even when the text also
   * mentions other vendors' keywords.
   */
  lemma QsvEncoderNameWins(stderr: string)
    requires Contains(Lower(stderr), "h264_qsv") || Contains(Lower(stderr), "hevc_qsv")
             || Contains(Lower(stderr), "av1_qsv") || Contains(Lower(stderr), "vp9_qsv")
    ensures HwaccelNameOf(stderr) == "Intel QSV"
  {
  }

  /**
   * Without a QSV encoder name, a full AMF encoder name decides the vendor,
   * whatever QSV or NVENC keywords ("qsv", "mfx", "nvenc", "cuda") occur too.
   */
  lemma AmfEncoderNameWins(stderr: string)
    requires !QsvEncoderIn(Lower(stderr)) && AmfEncoderIn(Lower(stderr))
    ensures HwaccelNameOf(stderr) == "AMD AMF"
  {
  }

  /**
   * Without a QSV or AMF encoder name, a full NVENC encoder name decides the
   * vendor, whatever keywords occur too.
   */
  lemma NvencEncoderNameWins(stderr: string)
    requires !QsvEncoderIn(Lower(stderr)) && !AmfEncoderIn(Lower(stderr))
    requires NvencEncoderIn(Lower(stderr))
    ensures HwaccelNameOf(stderr) == "NVIDIA NVENC"
  {
  }

  /**
   * With no full encoder name, the vendor keywords are tried in the order
   * QSV, AMF, NVENC, and each beats every later one and VAAPI.
   */
  lemma VendorKeywordOrder(stderr: string)
    requires !VendorEncoderIn(Lower(stderr))
    ensures QsvKeywordIn(Lower(stderr)) ==> HwaccelNameOf(stderr) == "Intel QSV"
    ensures !QsvKeywordIn(Lower(stderr)) && AmfKeywordIn(Lower(stderr))
            ==> HwaccelNameOf(stderr) == "AMD AMF"
    ensures !QsvKeywordIn(Lower(stderr)) && !AmfKeywordIn(Lower(stderr)) && NvencKeywordIn(Lower(stderr))
            ==> HwaccelNameOf(stderr) == "NVIDIA NVENC"
  {
  }

  /**
   * VAAPI is named only when no vendor name or keyword occurs, and the
   * generic label exactly when nothing at all is recognised.
   */
  lemma VaapiAndGenericLast(stderr: string)
    ensures HwaccelNameOf(stderr) == "VAAPI" <==>
      !VendorEncoderIn(Lower(stderr)) && !QsvKeywordIn(Lower(stderr)) && !AmfKeywordIn(Lower(stderr))
      && !NvencKeywordIn(Lower(stderr)) && Contains(Lower(stderr), "vaapi")
    ensures HwaccelNameOf(stderr) == GenericHwName <==>
      !VendorEncoderIn(Lower(stderr)) && !QsvKeywordIn(Lower(stderr)) && !AmfKeywordIn(Lower(stderr))
      && !NvencKeywordIn(Lower(stderr)) && !Contains(Lower(stderr), "vaapi")
  {
  }

  // ---------------------------------------------------------------------
  // Messages
  // ---------------------------------------------------------------------

  /** `get_encoder_display_name`: a readable label, or the name itself. */
  function EncoderDisplayName(encoder: string): string
  {
    match encoder
    case "h264_nvenc" => "H.264 NVENC (NVIDIA)"
    case "hevc_nvenc" => "H.265/HEVC NVENC (NVIDIA)"
    case "av1_nvenc" => "AV1 NVENC (NVIDIA)"
    case "h264_qsv" => "H.264 QSV (Intel)"
    case "hevc_qsv" => "H.265/HEVC QSV (Intel)"
    case "av1_qsv" => "AV1 QSV (Intel)"
    case "vp9_qsv" => "VP9 QSV (Intel)"
    case "h264_amf" => "H.264 AMF (AMD)"
    case "hevc_amf" => "H.265/HEVC AMF (AMD)"
    case "av1_amf" => "AV1 AMF (AMD)"
    case "libx264" => "H.264 (ソフトウェア)"
    case "libx265" => "H.265/HEVC (ソフトウェア)"
    case "libvpx-vp9" => "VP9 (ソフトウェア)"
    case "libsvtav1" => "AV1 (ソフトウェア)"
    case "aac" => "AAC オーディオ"
    case "libmp3lame" => "MP3 オーディオ"
    case "flac" => "FLAC オーディオ"
    case _ => encoder
  }

  const NvencSuggestion := "NVIDIAグラフィックカードが必要です。HWアクセラレーション設定を「ソフトウェア」に変更してください"
  const QsvSuggestion := "Intel製CPUの内蔵グラフィックスが必要です。HWアクセラレーション設定を「ソフトウェア」に変更してください"
  const AmfSuggestion := "AMDグラフィックカードが必要です。HWアクセラレーション設定を「ソフトウェア」に変更してください"
  const Av1Suggestion := "AV1エンコーダーがインストールされていません。H.264またはH.265コーデックをお試しください"
  const LameSuggestion := "MP3エンコーダー(LAME)がインストールされていません。AACオーディオコーデックをお試しください"
  const OtherEncoderSuggestion := "別のコーデックまたはHWアクセラレーション設定をお試しください"

  /** `get_encoder_suggestion`: by case-sensitive substring, vendors first. */
  function EncoderSuggestion(encoder: string): string
  {
    if Contains(encoder, "nvenc") then NvencSuggestion
    else if Contains(encoder, "qsv") then QsvSuggestion
    else if Contains(encoder, "amf") then AmfSuggestion
    else if Contains(encoder, "libsvtav1") || Contains(encoder, "av1") then Av1Suggestion
    else if Contains(encoder, "libmp3lame") then LameSuggestion
    else OtherEncoderSuggestion
  }

  /**
   * `truncate_message`: unchanged when it fits in `maxLen`, otherwise its
   * first `maxLen` characters and `...`.
   */
  function TruncateMessage(msg: string, maxLen: nat): (r: string)
    ensures |msg| <= maxLen ==> r == msg
    ensures |msg| > maxLen ==> |r| == maxLen + 3 && r[..maxLen] == msg[..maxLen] && r[maxLen..] == "..."
  {
    if |msg| <= maxLen then msg else msg[..maxLen] + "..."
  }

  /** A truncated message never exceeds its limit by more than the ellipsis. */
  lemma TruncateMessageBound(msg: string, maxLen: nat)
    ensures |TruncateMessage(msg, maxLen)| <= maxLen + 3
    ensures |TruncateMessage(msg, maxLen)| <= |msg| + 3
    ensures TruncateMessage(TruncateMessage(msg, maxLen), maxLen + 3) == TruncateMessage(msg, maxLen)
  {
  }

  // ---------------------------------------------------------------------
  // What each kind tells the user
  // ---------------------------------------------------------------------

  /** A line that mentions `error`, `failed`, `cannot` or `unable`, in any case. */
  predicate IsErrorLine(line: string)
  {
    var l := Lower(line);
    Contains(l, "error") || Contains(l, "failed") || Contains(l, "cannot") || Contains(l, "unable")
  }

  /** The last error line, if any: `filter(..).last()`. */
  function {:induction false} LastErrorLine(lines: seq<string>): (r: Option<string>)
    ensures r.None? <==> forall k | 0 <= k < |lines| :: !IsErrorLine(lines[k])
    ensures r.Some? ==> exists k | 0 <= k < |lines| ::
      lines[k] == r.value && IsErrorLine(lines[k]) && forall m | k < m < |lines| :: !IsErrorLine(lines[m])
    decreases |lines|
  {
    if lines == [] then None
    else if IsErrorLine(lines[|lines| - 1]) then Some(lines[|lines| - 1])
    else
      var front := lines[..|lines| - 1];
      var r := LastErrorLine(front);
      assert forall k | 0 <= k < |front| :: front[k] == lines[k];
      r
  }

  /** The user message of each kind, as its constructor formats it. */
  function UserMessage(k: FfmpegErrorKind): string
  {
    match k
    case EncoderNotSupported(encoder) =>
      "エンコーダー「" + EncoderDisplayName(encoder) + "」はこのシステムでサポートされていません"
    case HwAccelNotAvailable(hwaccel) => "ハードウェアアクセラレーション「" + hwaccel + "」が利用できません"
    case DecoderNotSupported(decoder) => "入力ファイルのコーデック「" + decoder + "」はサポートされていません"
    case InputNotFound => "入力ファイルが見つかりません"
    case InputCorrupted => "入力ファイルが破損しているか、形式が不正です"
    case PermissionDenied => "ファイルへのアクセス権限がありません"
    case DiskFull => "ディスク容量が不足しています"
    case OutputWriteError => "出力ファイルを作成できません"
    case OutOfMemory => "メモリが不足しています"
    case InvalidCodecOption(option) => "コーデックオプション「" + option + "」が無効です"
    case Unknown(line) => "変換エラー: " + TruncateMessage(line, 100)
  }

  /** The suggestion of each kind; only Unknown has none. */
  function Suggestion(k: FfmpegErrorKind): (r: Option<string>)
    ensures r.None? <==> k.Unknown?
  {
    match k
    case EncoderNotSupported(encoder) => Some(EncoderSuggestion(encoder))
    case HwAccelNotAvailable(_) =>
      Some("HWアクセラレーション設定を「ソフトウェア」に変更するか、グラフィックドライバーを最新版に更新してください")
    case DecoderNotSupported(_) =>
      Some("この入力形式をサポートするFFmpegビルドが必要です。GPLビルドのFFmpegをお試しください")
    case InputNotFound => Some("ファイルが移動または削除されていないか確認してください")
    case InputCorrupted =>
      Some("ファイルが正常に再生できるか確認してください。ダウンロードが途中で中断された可能性があります")
    case PermissionDenied =>
      Some("出力先フォルダへの書き込み権限があるか確認してください。管理者権限が必要な場合があります")
    case DiskFull => Some("出力先ドライブの空き容量を確保してください")
    case OutputWriteError => Some("出力先フォルダが存在し、書き込み可能であることを確認してください")
    case OutOfMemory => Some("他のアプリケーションを終了するか、解像度を下げてお試しください")
    case InvalidCodecOption(_) =>
      Some("選択したエンコーダーはこのオプションをサポートしていません。設定を変更してお試しください")
    case Unknown(_) => None
  }

  // ---------------------------------------------------------------------
  // The classifier
  // ---------------------------------------------------------------------

  /** The kind the cascade picks, with the names read off the original text. */
  function KindOf(stderr: string): FfmpegErrorKind
  {
    match FiredRule(Lower(stderr))
    case EncoderRule => EncoderNotSupported(EncoderNameIn(Lines(stderr)))
    case QsvRule => HwAccelNotAvailable("Intel QSV")
    case NvencRule => HwAccelNotAvailable("NVIDIA NVENC")
    case AmfRule => HwAccelNotAvailable("AMD AMF")
    case GenericHwRule => HwAccelNotAvailable(HwaccelNameOf(stderr))
    case DecoderRule => DecoderNotSupported(QuotedNameIn(Lines(stderr), "decoder"))
    case InputNotFoundRule => InputNotFound
    case InputCorruptedRule => InputCorrupted
    case PermissionRule => PermissionDenied
    case DiskFullRule => DiskFull
    case OutputRule => OutputWriteError
    case MemoryRule => OutOfMemory
    case OptionRule => InvalidCodecOption(QuotedNameIn(Lines(stderr), "option"))
    case UnknownRule => Unknown(LastErrorLine(Lines(stderr)).GetOr(DefaultErrorLine))
  }

  /**
   * `FfmpegError::parse`: the kind the cascade picks, that kind's message
   * and suggestion, and the raw text unchanged; only the Unknown kind comes
   * without a suggestion.
   */
  function Parse(stderr: string): (e: FfmpegError)
    ensures e.kind == KindOf(stderr) && e.rawMessage == stderr
    ensures e.userMessage == UserMessage(e.kind)
    ensures e.suggestion.None? <==> e.kind.Unknown?
  {
    var k := KindOf(stderr);
    FfmpegError(k, UserMessage(k), Suggestion(k), stderr)
  }

  /** Each rule yields its own kind, and the vendor rules their vendor. */
  lemma KindFollowsRule(stderr: string)
    ensures var k, r := KindOf(stderr), FiredRule(Lower(stderr));
      (k.EncoderNotSupported? <==> r == EncoderRule)
      && (k.HwAccelNotAvailable? <==> r in {QsvRule, NvencRule, AmfRule, GenericHwRule})
      && (r == QsvRule ==> k.hwaccel == "Intel QSV")
      && (r == NvencRule ==> k.hwaccel == "NVIDIA NVENC")
      && (r == AmfRule ==> k.hwaccel == "AMD AMF")
      && (k.DecoderNotSupported? <==> r == DecoderRule)
      && (k == InputNotFound <==> r == InputNotFoundRule)
      && (k == InputCorrupted <==> r == InputCorruptedRule)
      && (k == PermissionDenied <==> r == PermissionRule)
      && (k == DiskFull <==> r == DiskFullRule)
      && (k == OutputWriteError <==> r == OutputRule)
      && (k == OutOfMemory <==> r == MemoryRule)
      && (k.InvalidCodecOption? <==> r == OptionRule)
      && (k.Unknown? <==> r == UnknownRule)
  {
  }

  /** The names of encoder, decoder and option errors come from the extractors. */
  lemma KindNames(stderr: string)
    ensures KindOf(stderr).EncoderNotSupported? ==> KindOf(stderr).encoder == EncoderNameIn(Lines(stderr))
    ensures KindOf(stderr).DecoderNotSupported? ==> KindOf(stderr).decoder == QuotedNameIn(Lines(stderr), "decoder")
    ensures KindOf(stderr).InvalidCodecOption? ==> KindOf(stderr).option == QuotedNameIn(Lines(stderr), "option")
  {
    var r := FiredRule(Lower(stderr));
    if r == EncoderRule {
    } else if r == DecoderRule {
    } else if r == OptionRule {
    } else {
      assert !KindOf(stderr).EncoderNotSupported? && !KindOf(stderr).DecoderNotSupported?;
      assert !KindOf(stderr).InvalidCodecOption?;
    }
  }

  /**
   * `line` is what an Unknown error reports for `ls`: the last line that
   * looks like an error, or the default text when no line does.
   */
  predicate ReportedLine(ls: seq<string>, line: string)
  {
    (line == DefaultErrorLine && forall k | 0 <= k < |ls| :: !IsErrorLine(ls[k]))
    || exists k | 0 <= k < |ls| :: ls[k] == line && IsErrorLine(line) && forall m | k < m < |ls| :: !IsErrorLine(ls[m])
  }

  lemma LastErrorLineReported(ls: seq<string>)
    ensures ReportedLine(ls, LastErrorLine(ls).GetOr(DefaultErrorLine))
  {
    var last := LastErrorLine(ls);
    if last.Some? {
      var k :| 0 <= k < |ls| && ls[k] == last.value && IsErrorLine(ls[k])
        && forall m | k < m < |ls| :: !IsErrorLine(ls[m]);
    }
  }

  /** The Unknown kind carries the reported line of the text. */
  lemma UnknownKindLine(stderr: string)
    requires KindOf(stderr).Unknown?
    ensures ReportedLine(Lines(stderr), KindOf(stderr).line)
  {
    assert KindOf(stderr).line == LastErrorLine(Lines(stderr)).GetOr(DefaultErrorLine);
    LastErrorLineReported(Lines(stderr));
  }

  /** Kinds that agree apart from names read off the original-case text. */
  predicate SameVerdict(x: FfmpegErrorKind, y: FfmpegErrorKind)
  {
    (x.EncoderNotSupported? <==> y.EncoderNotSupported?)
    && (x.DecoderNotSupported? <==> y.DecoderNotSupported?)
    && (x.InvalidCodecOption? <==> y.InvalidCodecOption?)
    && (x.Unknown? <==> y.Unknown?)
    && (!x.EncoderNotSupported? && !x.DecoderNotSupported? && !x.InvalidCodecOption? && !x.Unknown? ==> x == y)
  }

  /**
   * Classification is case-insensitive: texts equal up to ASCII case fire
   * the same rule and get the same kind, names aside.
   */
  lemma KindCaseInsensitive(a: string, b: string)
    requires Lower(a) == Lower(b)
    ensures FiredRule(Lower(a)) == FiredRule(Lower(b))
    ensures SameVerdict(KindOf(a), KindOf(b))
  {
    KindFollowsRule(a);
    KindFollowsRule(b);
  }

  /** Lower-casing the text first changes nothing about the verdict. */
  lemma KindOfLowered(s: string)
    ensures SameVerdict(KindOf(Lower(s)), KindOf(s))
  {
    LowerIdempotent(s);
    KindCaseInsensitive(Lower(s), s);
  }

  // ---------------------------------------------------------------------
  // The final message
  // ---------------------------------------------------------------------

  /** `format_user_message`: the user message, then the tip marker and suggestion if any. */
  method FormatUserMessage(e: FfmpegError) returns (msg: string)
    ensures e.suggestion.None? ==> msg == e.userMessage
    ensures e.suggestion.Some? ==> msg == e.userMessage + TipMarker + e.suggestion.value
  {
    msg := e.userMessage;
    if e.suggestion.Some? {
      msg := msg + TipMarker;
      msg := msg + e.suggestion.value;
    }
  }

  // ---------------------------------------------------------------------
  // Worked examples
  // ---------------------------------------------------------------------

  // Each rule needs certain characters (or keywords) in the text to fire.

  lemma EncoderRuleNeeds(l: string)
    requires 'k' !in l && !Contains(l, "encoder")
    ensures !RuleHolds(EncoderRule, l)
  {
    NotContainsMissingChar(l, "unknown encoder", 'k');
    if Contains(l, "no such encoder") {
      ContainsAt("no such encoder", "encoder", 8);
      ContainsTrans(l, "no such encoder", "encoder");
    }
  }

  lemma QsvRuleNeeds(l: string)
    requires 'q' !in l && 'x' !in l
    ensures !RuleHolds(QsvRule, l)
  {
    NotContainsMissingChar(l, "no qsv-supporting device", 'q');
    NotContainsMissingChar(l, "qsv", 'q');
    NotContainsMissingChar(l, "mfx", 'x');
    NotContainsMissingChar(l, "h264_qsv", 'q');
    NotContainsMissingChar(l, "hevc_qsv", 'q');
    NotContainsMissingChar(l, "av1_qsv", 'q');
    NotContainsMissingChar(l, "libmfx", 'x');
  }

  lemma NvencRuleNeeds(l: string)
    requires 'v' !in l
    ensures !RuleHolds(NvencRule, l)
  {
    NotContainsMissingChar(l, "no nvenc capable devices found", 'v');
    NotContainsMissingChar(l, "cannot load nvcuda.dll", 'v');
    NotContainsMissingChar(l, "cannot load nvencodeapi", 'v');
    NotContainsMissingChar(l, "h264_nvenc", 'v');
    NotContainsMissingChar(l, "hevc_nvenc", 'v');
  }

  lemma AmfRuleNeeds(l: string)
    requires 'a' !in l
    ensures !RuleHolds(AmfRule, l)
  {
    NotContainsMissingChar(l, "amf failed", 'a');
    NotContainsMissingChar(l, "no amf capable device", 'a');
    NotContainsMissingChar(l, "h264_amf", 'a');
    NotContainsMissingChar(l, "hevc_amf", 'a');
  }

  lemma GenericHwRuleNeeds(l: string)
    requires 'v' !in l && 'a' !in l && '3' !in l
    ensures !RuleHolds(GenericHwRule, l)
  {
    NotContainsMissingChar(l, "nvenc", 'v');
    NotContainsMissingChar(l, "qsv", 'v');
    NotContainsMissingChar(l, "amf", 'a');
    NotContainsMissingChar(l, "cuda", 'a');
    NotContainsMissingChar(l, "d3d11", '3');
    NotContainsMissingChar(l, "vaapi", 'v');
  }

  lemma DecoderRuleNeeds(l: string)
    requires 'k' !in l && !Contains(l, "decoder")
    ensures !RuleHolds(DecoderRule, l)
  {
    NotContainsMissingChar(l, "unknown decoder", 'k');
  }

  lemma InputNotFoundRuleNeeds(l: string)
    requires 'u' !in l && 'x' !in l
    ensures !RuleHolds(InputNotFoundRule, l)
  {
    NotContainsMissingChar(l, "no such file", 'u');
    NotContainsMissingChar(l, "does not exist", 'x');
    NotContainsMissingChar(l, "file not found", 'u');
  }

  lemma InputCorruptedRuleNeeds(l: string)
    requires 'v' !in l && 'c' !in l
    ensures !RuleHolds(InputCorruptedRule, l)
  {
    NotContainsMissingChar(l, "invalid data found", 'v');
    NotContainsMissingChar(l, "corrupt", 'c');
    NotContainsMissingChar(l, "moov atom not found", 'v');
    NotContainsMissingChar(l, "invalid", 'v');
  }

  /** Text without `k`, `c`, `q`, `x`, `v`, `a` and `3` fails the first five rules. */
  lemma EarlyRulesNeed(l: string)
    requires 'k' !in l && 'c' !in l && 'q' !in l && 'x' !in l
    requires 'v' !in l && 'a' !in l && '3' !in l
    ensures forall k | 0 <= k < Rank(DecoderRule) :: !RuleHolds(Cascade[k], l)
  {
    NotContainsMissingChar(l, "encoder", 'c');
    EncoderRuleNeeds(l);
    QsvRuleNeeds(l);
    NvencRuleNeeds(l);
    AmfRuleNeeds(l);
    GenericHwRuleNeeds(l);
  }

  /**
   * Text holding "permission denied" but none of `k`, `c`, `q`, `x`, `v`,
   * `a`, `3` and `u` passes every earlier rule and fires the permission rule.
   */
  lemma PermissionDeniedFires(l: string)
    requires Contains(l, "permission denied")
    requires 'k' !in l && 'c' !in l && 'q' !in l && 'x' !in l
    requires 'v' !in l && 'a' !in l && '3' !in l && 'u' !in l
    ensures FiredRule(l) == PermissionRule
  {
    EarlyRulesNeed(l);
    NotContainsMissingChar(l, "decoder", 'c');
    DecoderRuleNeeds(l);
    InputNotFoundRuleNeeds(l);
    InputCorruptedRuleNeeds(l);
    FiredRuleIs(l, PermissionRule);
  }

  lemma LowerPermissionDenied(s: string)
    requires s == "Permission denied"
    ensures Lower(s) == "permission denied"
  {
  }

  lemma PermissionDeniedChars(l: string)
    requires l == "permission denied"
    ensures 'k' !in l && 'c' !in l && 'q' !in l && 'x' !in l
  {
  }

  lemma PermissionDeniedMoreChars(l: string)
    requires l == "permission denied"
    ensures 'v' !in l && 'a' !in l && '3' !in l && 'u' !in l
  {
  }

  /** "Permission denied" fires the permission rule. */
  lemma PermissionDeniedRule(s: string)
    requires s == "Permission denied"
    ensures FiredRule(Lower(s)) == PermissionRule
  {
    LowerPermissionDenied(s);
    PermissionDeniedChars(Lower(s));
    PermissionDeniedMoreChars(Lower(s));
    ContainsAt(Lower(s), "permission denied", 0);
    PermissionDeniedFires(Lower(s));
  }

  /** `test_parse_permission_denied`: "Permission denied" is a permission error. */
  lemma PermissionDeniedExample()
    ensures KindOf("Permission denied") == PermissionDenied
  {
    PermissionDeniedRule("Permission denied");
    KindFollowsRule("Permission denied");
  }

  /** Text holding "cannot load nvcuda.dll" but none of `k`, `e`, `q` and `x` fires the NVENC rule. */
  lemma NvcudaFires(l: string)
    requires Contains(l, "cannot load nvcuda.dll")
    requires 'k' !in l && 'e' !in l && 'q' !in l && 'x' !in l
    ensures FiredRule(l) == NvencRule
  {
    NotContainsMissingChar(l, "encoder", 'e');
    EncoderRuleNeeds(l);
    QsvRuleNeeds(l);
    FiredRuleIs(l, NvencRule);
  }

  lemma LowerNvcuda(s: string)
    requires s == "Cannot load nvcuda.dll"
    ensures Lower(s) == "cannot load nvcuda.dll"
  {
  }

  lemma NvcudaChars(l: string)
    requires l == "cannot load nvcuda.dll"
    ensures 'k' !in l && 'e' !in l && 'q' !in l && 'x' !in l
  {
  }

  /** "Cannot load nvcuda.dll" fires the NVENC rule. */
  lemma NvcudaRule(s: string)
    requires s == "Cannot load nvcuda.dll"
    ensures FiredRule(Lower(s)) == NvencRule
  {
    LowerNvcuda(s);
    NvcudaChars(Lower(s));
    ContainsAt(Lower(s), "cannot load nvcuda.dll", 0);
    NvcudaFires(Lower(s));
  }

  /** `test_parse_nvenc_not_available`: a missing CUDA driver makes NVENC unavailable. */
  lemma NvcudaExample()
    ensures KindOf("Cannot load nvcuda.dll") == HwAccelNotAvailable("NVIDIA NVENC")
  {
    NvcudaRule("Cannot load nvcuda.dll");
    KindFollowsRule("Cannot load nvcuda.dll");
  }

  /**
   * Text holding "no such file", none of `k`, `q`, `x`, `v`, `a` and `3`,
   * and neither "encoder" nor "decoder" fires the
   * input-not-found rule.
   */
  lemma NoSuchFileFires(l: string)
    requires Contains(l, "no such file")
    requires 'k' !in l && 'q' !in l && 'x' !in l && 'v' !in l && 'a' !in l && '3' !in l
    requires !Contains(l, "encoder") && !Contains(l, "decoder")
    ensures FiredRule(l) == InputNotFoundRule
  {
    EncoderRuleNeeds(l);
    QsvRuleNeeds(l);
    NvencRuleNeeds(l);
    AmfRuleNeeds(l);
    GenericHwRuleNeeds(l);
    DecoderRuleNeeds(l);
    FiredRuleIs(l, InputNotFoundRule);
  }

  lemma LowerNoSuchFile(s: string)
    requires s == "No such file or directory"
    ensures Lower(s) == "no such file or directory"
  {
  }

  lemma NoSuchFileChars(l: string)
    requires l == "no such file or directory"
    ensures 'k' !in l && 'q' !in l && 'x' !in l
  {
  }

  lemma NoSuchFileMoreChars(l: string)
    requires l == "no such file or directory"
    ensures 'v' !in l && 'a' !in l && '3' !in l
  {
  }

  /** "encoder" does not occur in "no such file or directory": split at its `f`. */
  lemma NoSuchFileLacksEncoder(l: string)
    requires l == "no such file or directory"
    ensures !Contains(l, "encoder")
  {
    var a, b := "no such ", "ile or directory";
    assert l == a + "f" + b;
    NotContainsMissingChar(a, "encoder", 'e');
    NotContainsMissingChar(b, "encoder", 'n');
    NotContainsAcross(a, 'f', b, "encoder");
  }

  /** "decoder" does not occur in "no such file or directory": split at its `f` and `i`. */
  lemma NoSuchFileLacksDecoder(l: string)
    requires l == "no such file or directory"
    ensures !Contains(l, "decoder")
  {
    var a, b, c := "no such ", "ile or d", "rectory";
    assert l == a + "f" + b + "i" + c;
    NotContainsMissingChar(a, "decoder", 'd');
    NotContainsMissingChar(b, "decoder", 'c');
    NotContainsAcross(a, 'f', b, "decoder");
    NotContainsMissingChar(c, "decoder", 'd');
    NotContainsAcross(a + "f" + b, 'i', c, "decoder");
  }

  lemma NoSuchFileHolds(l: string)
    requires l == "no such file or directory"
    ensures Contains(l, "no such file")
  {
    ContainsAt(l, "no such file", 0);
  }

  /** "No such file or directory" fires the input-not-found rule. */
  lemma NoSuchFileRule(s: string)
    requires s == "No such file or directory"
    ensures FiredRule(Lower(s)) == InputNotFoundRule
  {
    LowerNoSuchFile(s);
    NoSuchFileChars(Lower(s));
    NoSuchFileMoreChars(Lower(s));
    NoSuchFileLacksEncoder(Lower(s));
    NoSuchFileLacksDecoder(Lower(s));
    NoSuchFileHolds(Lower(s));
    NoSuchFileFires(Lower(s));
  }

  /** `test_parse_input_not_found`: "No such file or directory" is a missing input. */
  lemma NoSuchFileExample()
    ensures KindOf("No such file or directory") == InputNotFound
  {
    NoSuchFileRule("No such file or directory");
    KindFollowsRule("No such file or directory");
  }

  lemma UnknownEncoderLower(l: string)
    requires l == "unknown encoder 'h264_nvenc'"
    ensures Contains(l, "unknown encoder") && Contains(l, "encoder")
  {
    ContainsAt(l, "unknown encoder", 0);
    ContainsAt(l, "encoder", 8);
  }

  lemma LowerUnknownEncoder(s: string)
    requires s == "Unknown encoder 'h264_nvenc'"
    ensures Lower(s) == "unknown encoder 'h264_nvenc'"
  {
  }

  /** "Unknown encoder 'h264_nvenc'" fires the encoder rule. */
  lemma UnknownEncoderRule(s: string)
    requires s == "Unknown encoder 'h264_nvenc'"
    ensures FiredRule(Lower(s)) == EncoderRule
    ensures Contains(Lower(s), "encoder")
  {
    LowerUnknownEncoder(s);
    UnknownEncoderLower(Lower(s));
    EncoderRuleFirst(Lower(s));
  }

  /**
   * A single line that mentions `encoder` and quotes a name: the quoted
   * name is the encoder reported.
   */
  lemma EncoderNameOfQuoted(a: string, name: string, b: string)
    requires '\'' !in a && '\'' !in name && '\n' !in a + name + b
    requires Contains(Lower(a + "'" + name + "'" + b), "encoder")
    ensures EncoderNameIn(Lines(a + "'" + name + "'" + b)) == name
  {
    var line := a + "'" + name + "'" + b;
    assert '\n' !in line by {
      assert forall c | c in line :: c in a + name + b || c == '\'';
    }
    QuotedSpanOf(a, name, b);
    LinesOfSingleLine(line);
    assert EncoderNameInLine(line) == Some(name);
  }

  /** The name read off "Unknown encoder 'h264_nvenc'" is the quoted one. */
  lemma UnknownEncoderName(s: string)
    requires s == "Unknown encoder 'h264_nvenc'"
    requires Contains(Lower(s), "encoder")
    ensures EncoderNameIn(Lines(s)) == "h264_nvenc"
  {
    assert s == "Unknown encoder " + "'" + "h264_nvenc" + "'" + "";
    EncoderNameOfQuoted("Unknown encoder ", "h264_nvenc", "");
  }

  /** `test_parse_encoder_not_found`: the encoder named in quotes is the unsupported one. */
  lemma UnknownEncoderExample()
    ensures KindOf("Unknown encoder 'h264_nvenc'") == EncoderNotSupported("h264_nvenc")
  {
    UnknownEncoderRule("Unknown encoder 'h264_nvenc'");
    UnknownEncoderName("Unknown encoder 'h264_nvenc'");
    KindFollowsRule("Unknown encoder 'h264_nvenc'");
    KindNames("Unknown encoder 'h264_nvenc'");
  }
}
