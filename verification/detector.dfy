/**
 * Reading `ffmpeg -version` output: the version token, its major and minor
 * numbers, whether the build is GPL, and the minimum-version test.
 *
 * Running ffmpeg, locating it and probing for an ffprobe next to it are not
 * part of this model: the output text and the ffprobe path found (if any)
 * are parameters.
 */
module Detector {
  import opened Wrappers
  import opened Ints
  import opened Text

  /** `FfmpegInfo`. */
  datatype FfmpegInfo = FfmpegInfo(
    ffmpegPath: string,
    ffprobePath: Option<string>,
    version: string,
    majorVersion: u32,
    minorVersion: u32,
    isGpl: bool)

  const EmptyOutputMessage := "Empty ffmpeg output"
  const UnknownVersion := "unknown"
  const GplFlag := "--enable-gpl"

  // ---------------------------------------------------------------------
  // Splitting on a character
  // ---------------------------------------------------------------------

  /** `s.split(c)`: the pieces between occurrences of `c`, at least one. */
  function SplitOn(s: string, c: char): (r: seq<string>)
    ensures |r| >= 1
    ensures forall k | 0 <= k < |r| :: c !in r[k]
    decreases |s|
  {
    match IndexOf(s, c)
    case None => [s]
    case Some(i) => [s[..i]] + SplitOn(s[i + 1..], c)
  }

  /** Splitting loses nothing: joining the pieces with `c` gives `s` back. */
  lemma {:induction false} JoinSplitOn(s: string, c: char)
    ensures Join(SplitOn(s, c), [c]) == s
    decreases |s|
  {
    match IndexOf(s, c)
    case None =>
    case Some(i) =>
      var rest := SplitOn(s[i + 1..], c);
      JoinSplitOn(s[i + 1..], c);
      assert SplitOn(s, c) == [s[..i]] + rest;
      assert Join([s[..i]] + rest, [c]) == s[..i] + [c] + Join(rest, [c]) by {
        assert ([s[..i]] + rest)[1..] == rest;
      }
      assert s == s[..i] + [c] + s[i + 1..];
  }

  /** A piece free of `c` followed by `c` is the first piece. */
  lemma SplitOnCons(a: string, c: char, b: string)
    requires c !in a
    ensures SplitOn(a + [c] + b, c) == [a] + SplitOn(b, c)
  {
    var s := a + [c] + b;
    IndexOfIs(s, c, |a|);
    assert s[..|a|] == a && s[|a| + 1..] == b;
  }

  /** A string free of `c` is a single piece. */
  lemma SplitOnWhole(s: string, c: char)
    requires c !in s
    ensures SplitOn(s, c) == [s]
  {
  }

  // ---------------------------------------------------------------------
  // The version
  // ---------------------------------------------------------------------

  predicate StartsWithDigit(t: string)
  {
    |t| > 0 && IsDigit(t[0])
  }

  /** The position of the first token that starts with a digit. */
  function FindDigitToken(ts: seq<string>): (r: Option<nat>)
    ensures r.None? <==> forall k | 0 <= k < |ts| :: !StartsWithDigit(ts[k])
    ensures r.Some? ==> (r.value < |ts| && StartsWithDigit(ts[r.value])
      && forall k | 0 <= k < r.value :: !StartsWithDigit(ts[k]))
  {
    if ts == [] then None
    else if StartsWithDigit(ts[0]) then Some(0)
    else
      match FindDigitToken(ts[1..])
      case None => None
      case Some(k) => Some(k + 1)
  }

  /** Tokens that do not start with a digit are passed over. */
  lemma {:induction false} FindDigitTokenSkips(pre: seq<string>, ts: seq<string>)
    requires forall k | 0 <= k < |pre| :: !StartsWithDigit(pre[k])
    ensures FindDigitToken(pre + ts).None? <==> FindDigitToken(ts).None?
    ensures FindDigitToken(ts).Some? ==> FindDigitToken(pre + ts) == Some(|pre| + FindDigitToken(ts).value)
    decreases |pre|
  {
    if pre != [] {
      assert (pre + ts)[0] == pre[0];
      assert (pre + ts)[1..] == pre[1..] + ts;
      FindDigitTokenSkips(pre[1..], ts);
    } else {
      assert pre + ts == ts;
    }
  }

  /** The first word starting with a digit, or `"unknown"` when there is none. */
  function FirstNumericWord(ts: seq<string>): string
  {
    match FindDigitToken(ts)
    case None => UnknownVersion
    case Some(k) => ts[k]
  }

  /** Words that do not start with a digit do not change the first numeric word. */
  lemma FirstNumericWordSkips(pre: seq<string>, ts: seq<string>)
    requires forall k | 0 <= k < |pre| :: !StartsWithDigit(pre[k])
    ensures FirstNumericWord(pre + ts) == FirstNumericWord(ts)
  {
    FindDigitTokenSkips(pre, ts);
    match FindDigitToken(ts)
    case None =>
    case Some(j) =>
      assert (pre + ts)[|pre| + j] == ts[j];
  }

  /** The version read from the first line: its first token starting with a digit. */
  function VersionOf(line: string): string
  {
    FirstNumericWord(SplitWhitespace(line))
  }

  /**
   * The version is `"unknown"` exactly when no token of the line starts
   * with a digit; otherwise it is the first token that does.
   */
  lemma VersionOfSpec(line: string)
    ensures VersionOf(line) == UnknownVersion ==>
      forall k | 0 <= k < |SplitWhitespace(line)| :: !StartsWithDigit(SplitWhitespace(line)[k])
    ensures (forall k | 0 <= k < |SplitWhitespace(line)| :: !StartsWithDigit(SplitWhitespace(line)[k]))
      ==> VersionOf(line) == UnknownVersion
    ensures VersionOf(line) != UnknownVersion ==>
      exists k | 0 <= k < |SplitWhitespace(line)| ::
        SplitWhitespace(line)[k] == VersionOf(line) && StartsWithDigit(VersionOf(line))
        && forall j | 0 <= j < k :: !StartsWithDigit(SplitWhitespace(line)[j])
  {
    var ts := SplitWhitespace(line);
    match FindDigitToken(ts)
    case None =>
      assert VersionOf(line) == UnknownVersion;
      assert forall k | 0 <= k < |ts| :: !StartsWithDigit(ts[k]);
    case Some(k) =>
      assert VersionOf(line) == ts[k] && StartsWithDigit(ts[k]);
      assert ts[k] != UnknownVersion by {
        assert UnknownVersion[0] == 'u';
        assert ts[k][0] != UnknownVersion[0];
      }
      assert forall j | 0 <= j < k :: !StartsWithDigit(ts[j]);
      assert !(forall j | 0 <= j < |ts| :: !StartsWithDigit(ts[j]));
  }

  /** A field of a split version, as a number; missing or malformed gives 0. */
  function NumberField(parts: seq<string>, i: nat): (r: u32)
    ensures i < |parts| && ParseU32(parts[i]).Some? ==> r == ParseU32(parts[i]).value
    ensures i >= |parts| || ParseU32(parts[i]).None? ==> r == 0
  {
    if i < |parts| then
      match ParseU32(parts[i])
      case Some(n) => n
      case None => 0
    else 0
  }

  /** The major and minor numbers: the first two `.`-separated fields. */
  function VersionNumbers(version: string): (u32, u32)
  {
    var parts := SplitOn(version, '.');
    (NumberField(parts, 0), NumberField(parts, 1))
  }

  /** Digits hold no dot. */
  lemma DigitsHaveNoDot(s: string)
    requires AllDigits(s)
    ensures '.' !in s
  {
    assert forall k | 0 <= k < |s| :: IsDigit(s[k]);
  }

  /** A dot-free field followed by nothing or by more fields is the first field. */
  lemma FirstField(sb: string, rest: string)
    requires '.' !in sb && (rest == [] || rest[0] == '.')
    ensures SplitOn(sb + rest, '.')[0] == sb
  {
    if rest == [] {
      assert sb + rest == sb;
      SplitOnWhole(sb, '.');
    } else {
      assert sb + rest == sb + ['.'] + rest[1..];
      SplitOnCons(sb, '.', rest[1..]);
    }
  }

  /** The first two fields of `a.b` followed by nothing or by more fields. */
  lemma FirstTwoFields(sa: string, sb: string, rest: string)
    requires '.' !in sa && '.' !in sb && (rest == [] || rest[0] == '.')
    ensures |SplitOn(sa + "." + sb + rest, '.')| >= 2
    ensures SplitOn(sa + "." + sb + rest, '.')[0] == sa
    ensures SplitOn(sa + "." + sb + rest, '.')[1] == sb
  {
    var t := sb + rest;
    assert sa + "." + sb + rest == sa + ['.'] + t;
    SplitOnCons(sa, '.', t);
    FirstField(sb, rest);
  }

  /**
   * `a.b` followed by nothing or by further `.`-fields reads back as
   * major `a` and minor `b`.
   */
  lemma VersionNumbersOf(a: nat, b: nat, rest: string)
    requires a < U32_LIMIT && b < U32_LIMIT
    requires rest == [] || rest[0] == '.'
    ensures VersionNumbers(NatToString(a) + "." + NatToString(b) + rest) == (a, b)
  {
    var sa, sb := NatToString(a), NatToString(b);
    DigitsHaveNoDot(sa);
    DigitsHaveNoDot(sb);
    FirstTwoFields(sa, sb, rest);
    ParseU32OfNatToString(a);
    ParseU32OfNatToString(b);
  }

  /** A bare number is a major version with minor 0. */
  lemma VersionNumbersOfMajor(a: nat)
    requires a < U32_LIMIT
    ensures VersionNumbers(NatToString(a)) == (a, 0)
  {
    var sa := NatToString(a);
    DigitsHaveNoDot(sa);
    SplitOnWhole(sa, '.');
    ParseU32OfNatToString(a);
  }

  /** `"unknown"` has no numbers: both read as 0. */
  lemma UnknownVersionNumbers()
    ensures VersionNumbers(UnknownVersion) == (0, 0)
  {
    SplitOnWhole(UnknownVersion, '.');
    ParseU32RejectsNonDigit(UnknownVersion, 0);
  }

  /** The usual release form `7.0.1` gives major 7 and minor 0. */
  lemma ReleaseVersionNumbers()
    ensures VersionNumbers("7.0.1") == (7, 0)
  {
    assert NatToString(7) == "7" && NatToString(0) == "0";
    assert "7.0.1" == NatToString(7) + "." + NatToString(0) + ".1";
    VersionNumbersOf(7, 0, ".1");
  }

  // ---------------------------------------------------------------------
  // Parsing the output
  // ---------------------------------------------------------------------

  /**
   * `parse_ffmpeg_output`: an error for empty output; otherwise the version
   * from the first line, its numbers, and whether the configuration
   * mentions `--enable-gpl` anywhere.
   */
  function ParseFfmpegOutput(output: string, ffmpegPath: string, ffprobePath: Option<string>)
    : Result<FfmpegInfo, string>
  {
    var lines := Lines(output);
    if lines == [] then Err(EmptyOutputMessage)
    else
      var version := VersionOf(lines[0]);
      var (major, minor) := VersionNumbers(version);
      Ok(FfmpegInfo(ffmpegPath, ffprobePath, version, major, minor, Contains(output, GplFlag)))
  }

  /** `Lines` has no line exactly for the empty text. */
  lemma LinesEmpty(s: string)
    ensures Lines(s) == [] <==> s == []
  {
  }

  /**
   * Parsing fails exactly on empty output, with the empty-output message;
   * otherwise the paths are kept and the version comes from the first line.
   */
  lemma ParseFfmpegOutputSpec(output: string, ffmpegPath: string, ffprobePath: Option<string>)
    ensures ParseFfmpegOutput(output, ffmpegPath, ffprobePath).Err? <==> output == []
    ensures output == [] ==> ParseFfmpegOutput(output, ffmpegPath, ffprobePath).error == EmptyOutputMessage
    ensures output != [] ==>
      var info := ParseFfmpegOutput(output, ffmpegPath, ffprobePath).value;
      info.ffmpegPath == ffmpegPath && info.ffprobePath == ffprobePath
      && info.version == VersionOf(Lines(output)[0])
      && (info.majorVersion, info.minorVersion) == VersionNumbers(info.version)
      && (info.isGpl <==> exists k: nat :: OccursAt(output, GplFlag, k))
  {
    LinesEmpty(output);
    ContainsIff(output, GplFlag);
  }

  /** With no version token the numbers are both 0. */
  lemma UnknownVersionIsZero(output: string, ffmpegPath: string, ffprobePath: Option<string>)
    requires output != [] && VersionOf(Lines(output)[0]) == UnknownVersion
    ensures ParseFfmpegOutput(output, ffmpegPath, ffprobePath).value.majorVersion == 0
    ensures ParseFfmpegOutput(output, ffmpegPath, ffprobePath).value.minorVersion == 0
  {
    LinesEmpty(output);
    UnknownVersionNumbers();
  }

  /** The first line ffmpeg prints: `ffmpeg version <v> <rest>`. */
  function Banner(v: string, rest: string): string
  {
    "ffmpeg" + " " + ("version" + " " + (v + " " + rest))
  }

  lemma BannerWordsAreTokens()
    ensures IsToken("ffmpeg") && IsToken("version")
  {
    IsTokenByMembership("ffmpeg");
    IsTokenByMembership("version");
  }

  lemma BannerWordsAreNotNumbers()
    ensures forall k | 0 <= k < |["ffmpeg", "version"]| :: !StartsWithDigit(["ffmpeg", "version"][k])
  {
  }

  lemma BannerTokens(v: string, rest: string)
    requires IsToken(v)
    ensures SplitWhitespace(Banner(v, rest)) == ["ffmpeg", "version"] + ([v] + SplitWhitespace(rest))
  {
    BannerWordsAreTokens();
    SplitWhitespaceCons("ffmpeg", "version" + " " + (v + " " + rest));
    SplitWhitespaceCons("version", v + " " + rest);
    SplitWhitespaceCons(v, rest);
  }

  /**
   * The first line of a release build gives the version `v` when `v`
   * starts with a digit.
   */
  lemma VersionAfterBanner(v: string, rest: string)
    requires IsToken(v) && StartsWithDigit(v)
    ensures VersionOf(Banner(v, rest)) == v
  {
    BannerTokens(v, rest);
    BannerWordsAreNotNumbers();
    var ts := [v] + SplitWhitespace(rest);
    assert FindDigitToken(ts) == Some(0);
    FindDigitTokenSkips(["ffmpeg", "version"], ts);
  }

  /**
   * When the word after `version` does not start with a digit, as in a
   * snapshot build, the version comes from later on the line, such as the
   * copyright years.
   */
  lemma VersionSkipsNonNumeric(v: string, rest: string)
    requires IsToken(v) && !StartsWithDigit(v)
    ensures VersionOf(Banner(v, rest)) == VersionOf(rest)
  {
    BannerTokens(v, rest);
    BannerWordsAreNotNumbers();
    var ts := SplitWhitespace(rest);
    var pre := ["ffmpeg", "version", v];
    assert ["ffmpeg", "version"] + ([v] + ts) == pre + ts;
    assert forall k | 0 <= k < |pre| :: !StartsWithDigit(pre[k]) by {
      assert pre[2] == v;
    }
    FirstNumericWordSkips(pre, ts);
  }

  lemma CopyrightTokens()
    ensures SplitWhitespace("Copyright" + " " + "2000-2024") == ["Copyright", "2000-2024"]
  {
    IsTokenByMembership("Copyright");
    IsTokenByMembership("2000-2024");
    SplitWhitespaceCons("Copyright", "2000-2024");
    SplitWhitespaceOfToken("2000-2024");
  }

  lemma CopyrightVersion()
    ensures VersionOf("Copyright" + " " + "2000-2024") == "2000-2024"
  {
    CopyrightTokens();
    var ts := ["Copyright", "2000-2024"];
    assert !StartsWithDigit(ts[0]) && StartsWithDigit(ts[1]);
    assert FindDigitToken(ts) == Some(1) by {
      assert ts[1..] == ["2000-2024"];
    }
  }

  /**
   * A snapshot build's banner line reports the copyright years as its
   * version, and its major and minor numbers then read as 0.
   */
  lemma SnapshotBuildVersion(v: string)
    requires IsToken(v) && !StartsWithDigit(v)
    ensures VersionOf(Banner(v, "Copyright" + " " + "2000-2024")) == "2000-2024"
    ensures VersionNumbers("2000-2024") == (0, 0)
  {
    VersionSkipsNonNumeric(v, "Copyright" + " " + "2000-2024");
    CopyrightVersion();
    SplitOnWhole("2000-2024", '.');
    ParseU32RejectsNonDigit("2000-2024", 4);
  }

  // ---------------------------------------------------------------------
  // Version requirement
  // ---------------------------------------------------------------------

  /** `check_version_requirement`. */
  function CheckVersionRequirement(info: FfmpegInfo, minMajor: u32): bool
  {
    info.majorVersion >= minMajor
  }

  lemma BannerWordsAreOneLine()
    ensures '\n' !in "ffmpeg" && '\n' !in "version"
  {
  }

  lemma BannerIsOneLine(v: string, rest: string)
    requires IsToken(v) && '\n' !in rest
    ensures '\n' !in Banner(v, rest)
  {
    assert '\n' !in v by {
      assert forall k | 0 <= k < |v| :: !IsWhitespace(v[k]);
    }
    BannerWordsAreOneLine();
  }

  /**
   * Output that is just a release banner parses: the version is the token
   * after `version`, with its numbers, and the paths are kept.
   */
  lemma ParseBanner(v: string, rest: string, ffmpegPath: string, ffprobePath: Option<string>)
    requires IsToken(v) && StartsWithDigit(v) && '\n' !in rest
    ensures ParseFfmpegOutput(Banner(v, rest), ffmpegPath, ffprobePath)
         == Ok(FfmpegInfo(ffmpegPath, ffprobePath, v, VersionNumbers(v).0, VersionNumbers(v).1,
                          Contains(Banner(v, rest), GplFlag)))
  {
    BannerIsOneLine(v, rest);
    LinesOfSingleLine(Banner(v, rest));
    VersionAfterBanner(v, rest);
  }

  /**
   * For output whose first line reports `a.b…`, the requirement holds
   * exactly when `a` reaches the minimum, and a build that meets a
   * requirement meets every lower one.
   */
  lemma CheckVersionOfRelease(a: nat, b: nat, rest: string, more: string, ffmpegPath: string,
                              ffprobePath: Option<string>, minMajor: u32, lower: u32)
    requires a < U32_LIMIT && b < U32_LIMIT
    requires (rest == [] || rest[0] == '.') && IsToken(NatToString(a) + "." + NatToString(b) + rest)
    requires '\n' !in more && lower <= minMajor
    ensures var output := Banner(NatToString(a) + "." + NatToString(b) + rest, more);
      var info := ParseFfmpegOutput(output, ffmpegPath, ffprobePath).value;
      ParseFfmpegOutput(output, ffmpegPath, ffprobePath).Ok?
      && (CheckVersionRequirement(info, minMajor) <==> a >= minMajor)
      && (CheckVersionRequirement(info, minMajor) ==> CheckVersionRequirement(info, lower))
  {
    var v := NatToString(a) + "." + NatToString(b) + rest;
    assert v[0] == NatToString(a)[0];
    ParseBanner(v, more, ffmpegPath, ffprobePath);
    VersionNumbersOf(a, b, rest);
  }
}
