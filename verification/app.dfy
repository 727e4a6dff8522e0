/**
 * The file queue of the application state: which inputs are accepted, the
 * entries made for them, and the list operations the window performs.
 *
 * The filesystem, ffprobe and the compression-ratio estimator are not
 * reached from here: a file's size, its probed metadata and the ratio the
 * estimator gives (which also carries the current transcode settings) are
 * parameters.
 */
module App {
  import opened Wrappers
  import opened Ints
  import opened Text
  import opened Paths

  // ---------------------------------------------------------------------
  // Accepted inputs
  // ---------------------------------------------------------------------

  /** The container extensions the queue accepts, in lower case. */
  const SupportedExtensions: seq<string> :=
    ["mp4", "mkv", "avi", "mov", "webm", "flv", "wmv", "m4v", "ts"]

  /** `is_supported_format`: the extension, lower-cased, is a listed one. */
  predicate IsSupportedFormat(path: string)
  {
    match Extension(path)
    case None => false
    case Some(ext) => Lower(ext) in SupportedExtensions
  }

  /**
   * A file `stem.ext` in any directory is accepted exactly when `ext`,
   * in any letter case, is one of the listed extensions.
   */
  lemma SupportedFormatOfName(dir: string, stem: string, ext: string)
    requires IsNormalName(stem + "." + ext) && stem != [] && '.' !in ext
    ensures IsSupportedFormat(PathJoin(dir, stem + "." + ext)) <==> Lower(ext) in SupportedExtensions
  {
    FileNameOfJoin(dir, stem + "." + ext);
    SplitNameOf(stem, ext);
  }

  /** A file name without a dot has no extension and is refused. */
  lemma ExtensionlessUnsupported(dir: string, name: string)
    requires IsNormalName(name) && '.' !in name
    ensures !IsSupportedFormat(PathJoin(dir, name))
  {
    FileNameOfJoin(dir, name);
  }

  /** A hidden file such as `.mp4` has no extension either and is refused. */
  lemma HiddenFileUnsupported(dir: string, rest: string)
    requires IsNormalName("." + rest) && '.' !in rest
    ensures !IsSupportedFormat(PathJoin(dir, "." + rest))
  {
    FileNameOfJoin(dir, "." + rest);
    HiddenNameHasNoExtension(rest);
  }

  // ---------------------------------------------------------------------
  // Entries
  // ---------------------------------------------------------------------

  /** `FileStatus`. */
  datatype FileStatus = Pending | Processing | Completed | Error(message: string) | Cancelled

  /** `FileStatus::label`. */
  function Label(s: FileStatus): string
  {
    match s
    case Pending => "待機中"
    case Processing => "処理中"
    case Completed => "完了"
    case Error(_) => "エラー"
    case Cancelled => "キャンセル"
  }

  /**
   * Every status has a label, and two statuses share one exactly when they
   * are the same state (any two errors count as the same state).
   */
  lemma LabelSpec(a: FileStatus, b: FileStatus)
    ensures Label(a) != []
    ensures Label(a) == Label(b) <==> a == b || (a.Error? && b.Error?)
  {
    if a != b && !(a.Error? && b.Error?) {
      assert Label(a)[0] != Label(b)[0] || |Label(a)| != |Label(b)|;
    }
  }

  /**
   * What the estimator reads about a video. Only what probing can fill in
   * is kept; the content type is not part of this model.
   */
  datatype VideoMetadata = VideoMetadata(
    resolution: Option<(u32, u32)>,
    fps: Option<real>,
    duration: Option<real>,
    sourceVideoBitrate: Option<u32>,
    sourceAudioBitrate: Option<u32>,
    sourceOverallBitrate: Option<u32>)

  /** Nothing known. */
  const UnknownMetadata := VideoMetadata(None, None, None, None, None, None)

  /** `FileEntry`; the progress is a fraction in [0, 1]. */
  datatype FileEntry = FileEntry(
    path: string,
    name: string,
    size: u64,
    status: FileStatus,
    progress: real,
    estimatedSize: Option<u64>,
    metadata: VideoMetadata)

  /**
   * `FileEntry::new`: named after the path's last component ("unknown"
   * without one), sized by the filesystem (0 when that fails), waiting,
   * with nothing done, no estimate and nothing known about the video.
   */
  function NewEntry(path: string, size: Option<u64>): (e: FileEntry)
    ensures e.path == path && e.size == size.GetOr(0)
    ensures e.status == Pending && e.progress == 0.0 && e.estimatedSize.None?
    ensures e.metadata == UnknownMetadata
    ensures FileName(path).Some? ==> e.name == FileName(path).value
    ensures FileName(path).None? ==> e.name == "unknown"
  {
    FileEntry(path, FileName(path).GetOr("unknown"), size.GetOr(0), Pending, 0.0, None, UnknownMetadata)
  }

  /**
   * The metadata the estimator is given: a missing resolution reads as
   * 1920x1080 and a missing frame rate as 30 fps.
   */
  function WithDefaults(m: VideoMetadata): VideoMetadata
  {
    m.(resolution := Some(m.resolution.GetOr((1920, 1080))), fps := Some(m.fps.GetOr(30.0)))
  }

  /**
   * The defaults only fill gaps: known values stay, the missing resolution
   * and frame rate become 1920x1080 and 30, nothing else changes, and
   * filling twice is filling once.
   */
  lemma WithDefaultsSpec(m: VideoMetadata)
    ensures WithDefaults(m).resolution.Some? && WithDefaults(m).fps.Some?
    ensures m.resolution.Some? ==> WithDefaults(m).resolution == m.resolution
    ensures m.resolution.None? ==> WithDefaults(m).resolution == Some((1920, 1080))
    ensures m.fps.Some? ==> WithDefaults(m).fps == m.fps
    ensures m.fps.None? ==> WithDefaults(m).fps == Some(30.0)
    ensures WithDefaults(m).(resolution := m.resolution, fps := m.fps) == m
    ensures WithDefaults(WithDefaults(m)) == WithDefaults(m)
  {
  }

  /**
   * `update_estimated_size`: the size times the ratio estimated for the
   * defaulted metadata, cast to `u64`. `ratio` stands for the estimator
   * under the current settings.
   */
  function UpdateEstimatedSize(e: FileEntry, ratio: VideoMetadata -> real): FileEntry
  {
    e.(estimatedSize := Some(ScaledSize(e.size, ratio(WithDefaults(e.metadata)))))
  }

  /** `(size as f64 * ratio) as u64`. */
  function ScaledSize(size: u64, ratio: real): u64
  {
    RealToU64(size as real * ratio)
  }

  /**
   * Updating gives an estimate and touches nothing else: in particular the
   * defaults go to the estimator only, not into the entry's metadata. The
   * estimate depends on the metadata only through its defaulted form.
   */
  lemma UpdateEstimatedSizeSpec(e: FileEntry, ratio: VideoMetadata -> real)
    ensures UpdateEstimatedSize(e, ratio).estimatedSize.Some?
    ensures UpdateEstimatedSize(e, ratio).(estimatedSize := e.estimatedSize) == e
    ensures UpdateEstimatedSize(e.(metadata := WithDefaults(e.metadata)), ratio).estimatedSize
         == UpdateEstimatedSize(e, ratio).estimatedSize
  {
    WithDefaultsSpec(e.metadata);
  }

  /**
   * The entry `add_files` queues for an accepted path: a new entry,
   * probed when ffprobe is available, then given its size estimate.
   */
  function QueuedEntry(path: string, sizeOf: string -> Option<u64>,
                       probe: Option<string -> VideoMetadata>, ratio: VideoMetadata -> real): FileEntry
  {
    var e := NewEntry(path, sizeOf(path));
    var probed := if probe.Some? then e.(metadata := probe.value(path)) else e;
    UpdateEstimatedSize(probed, ratio)
  }

  /**
   * The steps `add_files` takes for one accepted path: the entry starts
   * waiting with nothing done, and the estimate is always filled in.
   */
  method MakeEntry(path: string, sizeOf: string -> Option<u64>,
                   probe: Option<string -> VideoMetadata>, ratio: VideoMetadata -> real)
    returns (entry: FileEntry)
    ensures entry == QueuedEntry(path, sizeOf, probe, ratio)
    ensures entry.path == path && entry.status == Pending && entry.progress == 0.0
    ensures entry.estimatedSize.Some?
    ensures probe.None? ==> entry.metadata == UnknownMetadata
  {
    entry := NewEntry(path, sizeOf(path));
    if probe.Some? {
      entry := entry.(metadata := probe.value(path));
    }
    entry := UpdateEstimatedSize(entry, ratio);
  }

  /** The entries queued for `paths`, in order, skipping refused paths. */
  function QueuedEntries(paths: seq<string>, sizeOf: string -> Option<u64>,
                         probe: Option<string -> VideoMetadata>, ratio: VideoMetadata -> real): (r: seq<FileEntry>)
    ensures |r| <= |paths|
    ensures forall k | 0 <= k < |r| ::
      r[k].status == Pending && r[k].progress == 0.0 && r[k].estimatedSize.Some?
      && IsSupportedFormat(r[k].path)
  {
    if paths == [] then []
    else
      var last := paths[|paths| - 1];
      QueuedEntries(paths[..|paths| - 1], sizeOf, probe, ratio)
        + if IsSupportedFormat(last) then [QueuedEntry(last, sizeOf, probe, ratio)] else []
  }

  lemma QueuedEntriesSnoc(paths: seq<string>, x: string, sizeOf: string -> Option<u64>,
                          probe: Option<string -> VideoMetadata>, ratio: VideoMetadata -> real)
    ensures QueuedEntries(paths + [x], sizeOf, probe, ratio)
         == QueuedEntries(paths, sizeOf, probe, ratio)
            + if IsSupportedFormat(x) then [QueuedEntry(x, sizeOf, probe, ratio)] else []
  {
    assert (paths + [x])[..|paths|] == paths;
  }

  /** The paths of some entries. */
  function PathsOf(es: seq<FileEntry>): (r: seq<string>)
    ensures |r| == |es| && forall k | 0 <= k < |es| :: r[k] == es[k].path
  {
    seq(|es|, k requires 0 <= k < |es| => es[k].path)
  }

  /** The elements of `s` that `keep` accepts, in order. */
  function Filter<T>(s: seq<T>, keep: T -> bool): seq<T>
  {
    if s == [] then []
    else (if keep(s[0]) then [s[0]] else []) + Filter(s[1..], keep)
  }

  lemma {:induction false} FilterSnoc<T>(s: seq<T>, x: T, keep: T -> bool)
    ensures Filter(s + [x], keep) == Filter(s, keep) + if keep(x) then [x] else []
    decreases |s|
  {
    if s == [] {
      assert s + [x] == [x];
      assert [x][1..] == [];
    } else {
      var head := if keep(s[0]) then [s[0]] else [];
      var tail := if keep(x) then [x] else [];
      assert (s + [x])[0] == s[0];
      assert (s + [x])[1..] == s[1..] + [x];
      assert Filter(s + [x], keep) == head + Filter(s[1..] + [x], keep);
      FilterSnoc(s[1..], x, keep);
      assert Filter(s, keep) == head + Filter(s[1..], keep);
      assert head + (Filter(s[1..], keep) + tail) == (head + Filter(s[1..], keep)) + tail;
    }
  }

  /** An element is kept exactly when it is there and accepted. */
  lemma {:induction false} FilterMembers<T>(s: seq<T>, x: T, keep: T -> bool)
    ensures x in Filter(s, keep) <==> x in s && keep(x)
    decreases |s|
  {
    if s != [] {
      FilterMembers(s[1..], x, keep);
      assert s == [s[0]] + s[1..];
    }
  }

  /** The accepted paths among `paths`, in order. */
  function SupportedPaths(paths: seq<string>): seq<string>
  {
    Filter(paths, IsSupportedFormat)
  }

  /** A path is kept exactly when it is given and accepted. */
  lemma SupportedPathsMembers(paths: seq<string>, x: string)
    ensures x in SupportedPaths(paths) <==> x in paths && IsSupportedFormat(x)
  {
    FilterMembers(paths, x, IsSupportedFormat);
  }

  /**
   * The queued entries are one per accepted path, in the order given: their
   * paths are exactly the accepted paths.
   */
  lemma {:induction false} QueuedPaths(paths: seq<string>, sizeOf: string -> Option<u64>,
                                       probe: Option<string -> VideoMetadata>, ratio: VideoMetadata -> real)
    ensures PathsOf(QueuedEntries(paths, sizeOf, probe, ratio)) == SupportedPaths(paths)
    decreases |paths|
  {
    if paths != [] {
      var init, last := paths[..|paths| - 1], paths[|paths| - 1];
      assert paths == init + [last];
      QueuedPaths(init, sizeOf, probe, ratio);
      FilterSnoc(init, last, IsSupportedFormat);
    }
  }

  // ---------------------------------------------------------------------
  // The queue
  // ---------------------------------------------------------------------

  /** The list with element `i` taken out, when there is one. */
  function RemoveAt<T>(s: seq<T>, i: nat): (r: seq<T>)
    ensures i >= |s| ==> r == s
    ensures i < |s| ==> (|r| == |s| - 1
      && (forall k | 0 <= k < i :: r[k] == s[k])
      && (forall k | i <= k < |r| :: r[k] == s[k + 1]))
  {
    if i < |s| then s[..i] + s[i + 1..] else s
  }

  /** Removing loses exactly the one element removed. */
  lemma RemoveAtMultiset<T>(s: seq<T>, i: nat)
    requires i < |s|
    ensures multiset(RemoveAt(s, i)) + multiset{s[i]} == multiset(s)
  {
    assert s == s[..i] + [s[i]] + s[i + 1..];
  }

  /** The application state's file queue. */
  class AppState {
    var files: seq<FileEntry>

    /** The queue starts empty. */
    constructor()
      ensures files == []
    {
      files := [];
    }

    /**
     * `add_files`: appends an entry for each accepted path, in order, and
     * leaves the entries already queued as they were.
     */
    method AddFiles(paths: seq<string>, sizeOf: string -> Option<u64>,
                    probe: Option<string -> VideoMetadata>, ratio: VideoMetadata -> real)
      modifies this
      ensures files == old(files) + QueuedEntries(paths, sizeOf, probe, ratio)
    {
      var i := 0;
      while i < |paths|
        invariant i <= |paths|
        invariant files == old(files) + QueuedEntries(paths[..i], sizeOf, probe, ratio)
      {
        var path := paths[i];
        QueuedEntriesSnoc(paths[..i], path, sizeOf, probe, ratio);
        assert paths[..i + 1] == paths[..i] + [path];
        if IsSupportedFormat(path) {
          var entry := MakeEntry(path, sizeOf, probe, ratio);
          files := files + [entry];
        }
        i := i + 1;
      }
      assert paths[..|paths|] == paths;
    }

    /** `remove_file`: drops entry `index` when it exists, otherwise nothing. */
    method RemoveFile(index: nat)
      modifies this
      ensures files == RemoveAt(old(files), index)
    {
      if index < |files| {
        files := files[..index] + files[index + 1..];
      }
    }

    /** `clear_files`. */
    method ClearFiles()
      modifies this
      ensures files == []
    {
      files := [];
    }

    /** `update_all_estimated_sizes`: re-estimates every entry in place. */
    method UpdateAllEstimatedSizes(ratio: VideoMetadata -> real)
      modifies this
      ensures |files| == |old(files)|
      ensures forall k | 0 <= k < |files| :: files[k] == UpdateEstimatedSize(old(files)[k], ratio)
    {
      var i := 0;
      while i < |files|
        invariant i <= |files| == |old(files)|
        invariant forall k | 0 <= k < i :: files[k] == UpdateEstimatedSize(old(files)[k], ratio)
        invariant forall k | i <= k < |files| :: files[k] == old(files)[k]
      {
        files := files[i := UpdateEstimatedSize(files[i], ratio)];
        i := i + 1;
      }
    }
  }

  /**
   * Adding to a queue keeps what was there and appends one waiting entry
   * per accepted path, in order.
   */
  method AddFilesScenario(queued: seq<FileEntry>, paths: seq<string>, sizeOf: string -> Option<u64>,
                          probe: Option<string -> VideoMetadata>, ratio: VideoMetadata -> real)
    returns (after: seq<FileEntry>)
    ensures |after| == |queued| + |SupportedPaths(paths)|
    ensures after[..|queued|] == queued
    ensures PathsOf(after[|queued|..]) == SupportedPaths(paths)
    ensures forall k | |queued| <= k < |after| :: after[k].status == Pending && after[k].progress == 0.0
  {
    var app := new AppState();
    app.files := queued;
    app.AddFiles(paths, sizeOf, probe, ratio);
    after := app.files;
    QueuedPaths(paths, sizeOf, probe, ratio);
    assert after[|queued|..] == QueuedEntries(paths, sizeOf, probe, ratio);
  }
}
