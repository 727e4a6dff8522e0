/**
 * `HwAccelDetector`: which acceleration kinds the machine offers, which
 * encoders its ffmpeg build lists, whether an encoder really works, and
 * which encoder a codec and acceleration kind end up with.
 *
 * Every process the detector launches is an oracle here: a `Machine`
 * says whether the NVIDIA driver probe succeeds, what `ffmpeg -encoders`
 * prints (nothing when it cannot be launched) and how the one-frame smoke
 * test of each encoder ends.
 */
module HwAccel {
  import opened Wrappers
  import opened Seqs
  import opened Text
  import opened Accel
  import P = Preset

  /** How one launch of the smoke test ended. */
  datatype SmokeOutcome = LaunchFailed | Exited(success: bool, stderr: string)

  /**
   * The machine as the detector's processes see it: the NVIDIA driver
   * probe (`nvidia-smi` on Windows, `/proc/driver/nvidia/version`
   * elsewhere), the stdout of `ffmpeg -encoders`, and the smoke test.
   */
  datatype Machine = Machine(
    nvidiaDriver: bool,
    encoderListing: Option<string>,
    smokeTest: string -> SmokeOutcome)

  /** `HwAccelInfo`. */
  datatype HwAccelInfo = HwAccelInfo(available: seq<HwAccelType>, recommended: HwAccelType)

  // ---------------------------------------------------------------------
  // Detection
  // ---------------------------------------------------------------------

  /** `check_encoder_available`: the listing mentions the encoder anywhere. */
  predicate Listed(m: Machine, encoder: string)
  {
    m.encoderListing.Some? && Contains(m.encoderListing.value, encoder)
  }

  /** `detect_nvenc`: the driver probe succeeds and ffmpeg lists `h264_nvenc`. */
  predicate NvencDetected(m: Machine)
  {
    m.nvidiaDriver && Listed(m, "h264_nvenc")
  }

  /** The kinds `detect` pushes, in push order; software is always last. */
  function DetectedKinds(m: Machine): seq<HwAccelType>
  {
    (if NvencDetected(m) then [Nvenc] else [])
    + (if Listed(m, "h264_qsv") then [Qsv] else [])
    + (if Listed(m, "h264_amf") then [Amf] else [])
    + [Software]
  }

  /** The order of preference: NVENC, then QSV, then AMF, then software. */
  function Priority(h: HwAccelType): nat
  {
    match h
    case Nvenc => 0
    case Qsv => 1
    case Amf => 2
    case Software => 3
    case Auto => 4
  }

  /**
   * Detection reports each vendor exactly when its probe succeeds, always
   * reports software, never reports `Auto`, and lists the kinds in order of
   * preference, each once.
   */
  lemma DetectedKindsShape(m: Machine)
    ensures var r := DetectedKinds(m);
      (Nvenc in r <==> NvencDetected(m))
      && (Qsv in r <==> Listed(m, "h264_qsv"))
      && (Amf in r <==> Listed(m, "h264_amf"))
      && Software in r && Auto !in r
      && r[|r| - 1] == Software
    ensures var r := DetectedKinds(m);
      forall i, j | 0 <= i < j < |r| :: Priority(r[i]) < Priority(r[j])
  {
  }

  /** The recommendation: the first of NVENC, QSV and AMF present, else software. */
  function Recommend(available: seq<HwAccelType>): HwAccelType
  {
    if Nvenc in available then Nvenc
    else if Qsv in available then Qsv
    else if Amf in available then Amf
    else Software
  }

  /**
   * When software is available, the recommendation is the available kind
   * the order of preference ranks highest, and never `Auto`.
   */
  lemma RecommendIsPreferred(available: seq<HwAccelType>)
    requires Software in available
    ensures Recommend(available) in available && Recommend(available) != Auto
    ensures forall k | 0 <= k < |available| :: Priority(Recommend(available)) <= Priority(available[k])
  {
  }

  /** `detect`: the kinds found, and the preferred one among them. */
  method Detect(m: Machine) returns (info: HwAccelInfo)
    ensures info.available == DetectedKinds(m)
    ensures info.recommended in info.available && info.recommended != Auto
    ensures forall k | 0 <= k < |info.available| :: Priority(info.recommended) <= Priority(info.available[k])
  {
    var available: seq<HwAccelType> := [];
    if m.nvidiaDriver && Listed(m, "h264_nvenc") {
      available := available + [Nvenc];
    }
    if Listed(m, "h264_qsv") {
      available := available + [Qsv];
    }
    if Listed(m, "h264_amf") {
      available := available + [Amf];
    }
    available := available + [Software];
    var recommended := if Nvenc in available then Nvenc
      else if Qsv in available then Qsv
      else if Amf in available then Amf
      else Software;
    info := HwAccelInfo(available, recommended);
    assert recommended == Recommend(available);
    RecommendIsPreferred(available);
  }

  /**
   * `resolve_auto`: a concrete kind is kept; `Auto` becomes the detected
   * recommendation. The result is never `Auto`.
   */
  method ResolveAuto(h: HwAccelType, m: Machine) returns (r: HwAccelType)
    ensures h != Auto ==> r == h
    ensures h == Auto ==> r == Recommend(DetectedKinds(m))
    ensures r != Auto
  {
    if h != Auto {
      return h;
    }
    var info := Detect(m);
    r := info.recommended;
  }

  // ---------------------------------------------------------------------
  // The encoder listing
  // ---------------------------------------------------------------------

  /**
   * The encoder one line of `ffmpeg -encoders` registers: the second
   * token of a trimmed line longer than seven characters that starts with
   * the video flag `V`.
   */
  function ListedEncoder(line: string): (r: Option<string>)
    ensures r.Some? ==> IsToken(r.value)
  {
    var t := Trim(line);
    if |t| > 7 && (StartsWith(t, "V") || StartsWith(t, " V")) then
      var parts := SplitWhitespace(t);
      if |parts| >= 2 then Some(parts[1]) else None
    else None
  }

  /**
   * Only video encoder lines register anything: the trimmed line starts
   * with `V` (a trimmed line never starts with a space, so the second
   * prefix test never decides).
   */
  lemma ListedEncoderNeedsVideoFlag(line: string)
    requires ListedEncoder(line).Some?
    ensures Trim(line) != [] && Trim(line)[0] == 'V' && |Trim(line)| > 7
  {
    var t := Trim(line);
    assert t == TrimEnd(TrimStart(line));
    assert t != [] ==> t[0] == TrimStart(line)[0];
  }

  /** The second token of a line whose first two tokens are given. */
  lemma SecondToken(flags: string, name: string, rest: string)
    requires IsToken(flags) && IsToken(name)
    ensures |SplitWhitespace(flags + " " + (name + " " + rest))| >= 2
    ensures SplitWhitespace(flags + " " + (name + " " + rest))[1] == name
  {
    SplitWhitespaceCons(flags, name + " " + rest);
    SplitWhitespaceCons(name, rest);
  }

  /** The name column of an indented listing line is the encoder registered. */
  lemma ListedEncoderOf(flags: string, name: string, rest: string)
    requires IsToken(flags) && flags[0] == 'V' && IsToken(name)
    requires rest != [] && !IsWhitespace(rest[|rest| - 1])
    requires |flags| + |name| + |rest| + 2 > 7
    ensures ListedEncoder(" " + (flags + " " + (name + " " + rest))) == Some(name)
  {
    var tail := name + " " + rest;
    var body := flags + " " + tail;
    assert body[0] == flags[0];
    assert body[|body| - 1] == rest[|rest| - 1];
    TrimLeadingSpace(body);
    TrimOfTrimmed(body);
    assert body[..1] == "V";
    SecondToken(flags, name, rest);
  }

  /** The line shown in the source's comment registers `h264_nvenc`. */
  lemma NvencListingLine(line: string)
    requires line == " " + ("V....." + " " + ("h264_nvenc" + " " + "NVIDIA NVENC H.264 encoder"))
    ensures ListedEncoder(line) == Some("h264_nvenc")
  {
    IsTokenByMembership("V.....");
    IsTokenByMembership("h264_nvenc");
    ListedEncoderOf("V.....", "h264_nvenc", "NVIDIA NVENC H.264 encoder");
  }

  /** The names `name` reads off some lines, line by line. */
  function NamesOf(lines: seq<string>, name: string -> Option<string>): set<string>
    decreases |lines|
  {
    if lines == [] then {}
    else
      var last := name(lines[|lines| - 1]);
      NamesOf(lines[..|lines| - 1], name) + (if last.Some? then {last.value} else {})
  }

  /** Reading one more line adds that line's name, if it has one. */
  lemma NamesOfStep(lines: seq<string>, i: nat, name: string -> Option<string>)
    requires i < |lines|
    ensures NamesOf(lines[..i + 1], name)
            == NamesOf(lines[..i], name) + (if name(lines[i]).Some? then {name(lines[i]).value} else {})
  {
    var p := lines[..i + 1];
    assert p[..|p| - 1] == lines[..i] && p[|p| - 1] == lines[i];
  }

  /** A name some line yields is collected. */
  lemma {:induction false} NameIsCollected(lines: seq<string>, k: nat, name: string -> Option<string>)
    requires k < |lines| && name(lines[k]).Some?
    ensures name(lines[k]).value in NamesOf(lines, name)
    decreases |lines|
  {
    var n := |lines| - 1;
    if k < n {
      assert lines[..n][k] == lines[k];
      NameIsCollected(lines[..n], k, name);
    }
  }

  /** A collected name is yielded by some line. */
  lemma {:induction false} CollectedIsNamed(lines: seq<string>, x: string, name: string -> Option<string>)
    requires x in NamesOf(lines, name)
    ensures exists k | 0 <= k < |lines| :: name(lines[k]) == Some(x)
    decreases |lines|
  {
    var n := |lines| - 1;
    if name(lines[n]) != Some(x) {
      CollectedIsNamed(lines[..n], x, name);
      var k :| 0 <= k < n && name(lines[..n][k]) == Some(x);
      assert lines[..n][k] == lines[k];
    }
  }

  /** The encoders a sequence of listing lines registers, line by line. */
  function Registered(lines: seq<string>): set<string>
  {
    NamesOf(lines, ListedEncoder)
  }

  /** A name is registered exactly when some line lists it. */
  lemma RegisteredIff(lines: seq<string>, x: string)
    ensures x in Registered(lines) <==> exists k | 0 <= k < |lines| :: ListedEncoder(lines[k]) == Some(x)
  {
    if x in Registered(lines) {
      CollectedIsNamed(lines, x, ListedEncoder);
    }
    if exists k | 0 <= k < |lines| :: ListedEncoder(lines[k]) == Some(x) {
      var k :| 0 <= k < |lines| && ListedEncoder(lines[k]) == Some(x);
      NameIsCollected(lines, k, ListedEncoder);
    }
  }

  /** The registry a listing yields; no listing registers nothing. */
  function RegistryOf(listing: Option<string>): set<string>
  {
    match listing
    case None => {}
    case Some(out) => Registered(Lines(out))
  }

  /** One line of the scan: trim, test the video flag, take the second token. */
  method ScanListingLine(line: string) returns (name: Option<string>)
    ensures name == ListedEncoder(line)
  {
    var t := Trim(line);
    name := None;
    if |t| > 7 && (StartsWith(t, "V") || StartsWith(t, " V")) {
      var parts := SplitWhitespace(t);
      if |parts| >= 2 {
        name := Some(parts[1]);
      }
    }
  }

  /** Scanning one more line adds that line's name, if it has one. */
  lemma RegisteredStep(lines: seq<string>, i: nat)
    requires i < |lines|
    ensures Registered(lines[..i + 1])
            == Registered(lines[..i]) + (if ListedEncoder(lines[i]).Some? then {ListedEncoder(lines[i]).value} else {})
  {
    var p := lines[..i + 1];
    assert p[..|p| - 1] == lines[..i] && p[|p| - 1] == lines[i];
  }

  /** `fetch_available_encoders`: scans the listing line by line. */
  method FetchAvailableEncoders(listing: Option<string>) returns (encoders: set<string>)
    ensures encoders == RegistryOf(listing)
  {
    encoders := {};
    if listing.None? {
      return;
    }
    var lines := Lines(listing.value);
    var i := 0;
    while i < |lines|
      invariant 0 <= i <= |lines|
      invariant encoders == Registered(lines[..i])
    {
      NamesOfStep(lines, i, ListedEncoder);
      var name := ScanListingLine(lines[i]);
      if name.Some? {
        encoders := encoders + {name.value};
      }
      i := i + 1;
    }
    assert lines[..i] == lines;
  }

  // ---------------------------------------------------------------------
  // Whether an encoder works
  // ---------------------------------------------------------------------

  /** The software encoders trusted as soon as ffmpeg lists them. */
  const KnownSoftwareEncoders: seq<string> := ["libx264", "libx265", "libvpx-vp9", "libsvtav1", "libaom-av1"]

  /** The stderr phrases that mark an encoder the GPU does not support. */
  predicate GpuUnsupported(stderr: string)
  {
    Contains(stderr, "not supported") || Contains(stderr, "doesn't support")
    || Contains(stderr, "Codec not supported") || Contains(stderr, "Error while opening encoder")
  }

  /** The verdict of the smoke test as the source computes it. */
  function SmokeVerdict(o: SmokeOutcome): bool
  {
    match o
    case LaunchFailed => false
    case Exited(success, stderr) => if !success && GpuUnsupported(stderr) then false else success
  }

  /**
   * The GPU-unsupported phrases only choose a log line: the verdict is
   * exactly whether the test ran and exited successfully.
   */
  lemma SmokeVerdictIsExitStatus(o: SmokeOutcome)
    ensures SmokeVerdict(o) <==> o.Exited? && o.success
  {
  }

  /** `test_encoder_availability`, given the registry and the smoke test. */
  predicate Usable(encoder: string, registry: set<string>, smokeTest: string -> SmokeOutcome)
  {
    if encoder !in registry then false
    else if encoder in KnownSoftwareEncoders then true
    else SmokeVerdict(smokeTest(encoder))
  }

  /**
   * An encoder is usable exactly when ffmpeg lists it and it is either a
   * known software encoder or passes the smoke test.
   */
  lemma UsableIff(encoder: string, registry: set<string>, smokeTest: string -> SmokeOutcome)
    ensures Usable(encoder, registry, smokeTest) <==>
      encoder in registry
      && (encoder in KnownSoftwareEncoders || (smokeTest(encoder).Exited? && smokeTest(encoder).success))
  {
    SmokeVerdictIsExitStatus(smokeTest(encoder));
  }

  // ---------------------------------------------------------------------
  // Choosing an encoder
  // ---------------------------------------------------------------------

  /**
   * `get_fallback_encoders`: never empty, led by the codec's software
   * encoder, and made of known software encoders only.
   */
  function FallbackEncoders(c: P.VideoCodec): (r: seq<string>)
    ensures |r| >= 1 && r[0] == P.SoftwareEncoderName(c)
    ensures forall k | 0 <= k < |r| :: r[k] in KnownSoftwareEncoders
  {
    match c
    case H264 => ["libx264"]
    case H265 => ["libx265"]
    case Vp9 => ["libvpx-vp9"]
    case Av1 => ["libsvtav1", "libaom-av1"]
  }

  /** The first usable candidate, if any. */
  function FirstUsable(cands: seq<string>, registry: set<string>, smokeTest: string -> SmokeOutcome): (r: Option<string>)
    ensures r.None? <==> forall k | 0 <= k < |cands| :: !Usable(cands[k], registry, smokeTest)
    ensures r.Some? ==> exists k | 0 <= k < |cands| ::
      cands[k] == r.value && Usable(cands[k], registry, smokeTest)
      && forall j | 0 <= j < k :: !Usable(cands[j], registry, smokeTest)
    decreases |cands|
  {
    if cands == [] then None
    else if Usable(cands[0], registry, smokeTest) then Some(cands[0])
    else
      var r := FirstUsable(cands[1..], registry, smokeTest);
      assert forall k | 1 <= k < |cands| :: cands[1..][k - 1] == cands[k];
      r
  }

  /** What `get_available_encoder` returns for a fixed registry and smoke test. */
  function SelectEncoder(c: P.VideoCodec, h: HwAccelType, registry: set<string>, smokeTest: string -> SmokeOutcome)
    : (string, HwAccelType)
  {
    var preferred := P.EncoderName(c, h);
    if Usable(preferred, registry, smokeTest) then (preferred, h)
    else
      var fallbacks := FallbackEncoders(c);
      (FirstUsable(fallbacks, registry, smokeTest).GetOr(fallbacks[0]), Software)
  }

  /**
   * The preferred encoder is kept with its acceleration kind when it
   * works. Otherwise the choice is a software fallback of the codec,
   * reported as `Software`: the first usable one, or the first one when
   * none is usable. A chosen encoder that does not work means that no
   * candidate did.
   */
  lemma SelectEncoderSpec(c: P.VideoCodec, h: HwAccelType, registry: set<string>, smokeTest: string -> SmokeOutcome)
    ensures var (e, hw) := SelectEncoder(c, h, registry, smokeTest);
      var fallbacks := FallbackEncoders(c);
      (Usable(P.EncoderName(c, h), registry, smokeTest) ==> e == P.EncoderName(c, h) && hw == h)
      && (!Usable(P.EncoderName(c, h), registry, smokeTest) ==> hw == Software && e in fallbacks)
      && (!Usable(P.EncoderName(c, h), registry, smokeTest) && Usable(e, registry, smokeTest) ==>
            exists k | 0 <= k < |fallbacks| :: fallbacks[k] == e
              && forall j | 0 <= j < k :: !Usable(fallbacks[j], registry, smokeTest))
      && (!Usable(e, registry, smokeTest) ==>
            !Usable(P.EncoderName(c, h), registry, smokeTest)
            && (forall k | 0 <= k < |fallbacks| :: !Usable(fallbacks[k], registry, smokeTest))
            && e == P.SoftwareEncoderName(c))
  {
    var fallbacks := FallbackEncoders(c);
    var first := FirstUsable(fallbacks, registry, smokeTest);
    if first.Some? {
      var k :| 0 <= k < |fallbacks| && fallbacks[k] == first.value && Usable(fallbacks[k], registry, smokeTest);
    }
  }

  /**
   * The cache of listed encoders (`AVAILABLE_ENCODERS`): empty until the
   * first query fills it from that query's listing, and never refilled.
   */
  class EncoderRegistry {
    var cache: Option<set<string>>

    constructor()
      ensures cache == None
    {
      cache := None;
    }

    /** `get_available_encoders`: the first listing seen decides for good. */
    method Get(listing: Option<string>) returns (encoders: set<string>)
      modifies this
      ensures old(cache).Some? ==> cache == old(cache)
      ensures old(cache).None? ==> cache == Some(RegistryOf(listing))
      ensures cache == Some(encoders)
    {
      if cache.None? {
        var fetched := FetchAvailableEncoders(listing);
        cache := Some(fetched);
      }
      encoders := cache.value;
    }

    /** `test_encoder_availability` against the cached registry. */
    method TestEncoderAvailability(encoder: string, m: Machine) returns (ok: bool)
      modifies this
      ensures old(cache).Some? ==> cache == old(cache)
      ensures old(cache).None? ==> cache == Some(RegistryOf(m.encoderListing))
      ensures cache.Some? && ok == Usable(encoder, cache.value, m.smokeTest)
    {
      var registry := Get(m.encoderListing);
      if encoder !in registry {
        return false;
      }
      if encoder in KnownSoftwareEncoders {
        return true;
      }
      var outcome := m.smokeTest(encoder);
      match outcome {
        case LaunchFailed =>
          ok := false;
        case Exited(success, stderr) =>
          if !success && GpuUnsupported(stderr) {
            return false;
          }
          ok := success;
      }
    }

    /**
     * `get_available_encoder`: the preferred encoder if it works, else the
     * fallbacks in order, else the first fallback, as `SelectEncoder` says
     * for the registry the cache holds.
     */
    method GetAvailableEncoder(c: P.VideoCodec, h: HwAccelType, m: Machine) returns (encoder: string, hw: HwAccelType)
      modifies this
      ensures old(cache).Some? ==> cache == old(cache)
      ensures old(cache).None? ==> cache == Some(RegistryOf(m.encoderListing))
      ensures cache.Some? && (encoder, hw) == SelectEncoder(c, h, cache.value, m.smokeTest)
    {
      var preferred := P.EncoderName(c, h);
      var ok := TestEncoderAvailability(preferred, m);
      if ok {
        return preferred, h;
      }
      var fallbacks := FallbackEncoders(c);
      var i := 0;
      while i < |fallbacks|
        invariant 0 <= i <= |fallbacks|
        invariant old(cache).Some? ==> cache == old(cache)
        invariant old(cache).None? ==> cache == Some(RegistryOf(m.encoderListing))
        invariant cache.Some? && !Usable(preferred, cache.value, m.smokeTest)
        invariant forall j | 0 <= j < i :: !Usable(fallbacks[j], cache.value, m.smokeTest)
      {
        ok := TestEncoderAvailability(fallbacks[i], m);
        if ok {
          assert FirstUsable(fallbacks, cache.value, m.smokeTest) == Some(fallbacks[i]) by {
            FirstUsableIs(fallbacks, cache.value, m.smokeTest, i);
          }
          return fallbacks[i], Software;
        }
        i := i + 1;
      }
      encoder, hw := fallbacks[0], Software;
    }
  }

  /** A usable candidate with no usable one before it is the first usable. */
  lemma FirstUsableIs(cands: seq<string>, registry: set<string>, smokeTest: string -> SmokeOutcome, i: nat)
    requires i < |cands| && Usable(cands[i], registry, smokeTest)
    requires forall j | 0 <= j < i :: !Usable(cands[j], registry, smokeTest)
    ensures FirstUsable(cands, registry, smokeTest) == Some(cands[i])
  {
    var r := FirstUsable(cands, registry, smokeTest);
    var k :| 0 <= k < |cands| && cands[k] == r.value && Usable(cands[k], registry, smokeTest)
      && forall j | 0 <= j < k :: !Usable(cands[j], registry, smokeTest);
    assert k == i;
  }
}
