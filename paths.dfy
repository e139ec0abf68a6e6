/**
 * Filesystem paths as sequences of components, with the two `PathBuf`
 * operations the daemon uses: `push` of a plain file name and
 * `set_file_name`.
 */
module Paths {
  import opened Options

  /**
   * A path as its normalized components, as `Path::components` yields them:
   * `"/"` only first, and no `"."` or empty component.
   */
  type Path = seq<string>

  /** The directory that lists one entry per backlight device. */
  const BacklightDir: Path := ["/", "sys", "class", "backlight"]
  const BrightnessFile: string := "brightness"
  const MaxBrightnessFile: string := "max_brightness"

  /** A component that names a file: not the root, not `.` and not `..`. */
  predicate IsName(c: string)
  {
    c != "/" && c != "." && c != ".." && c != ""
  }

  /** `Path::file_name`: the last component when it names a file. */
  function FileName(p: Path): Option<string>
  {
    if p != [] && IsName(p[|p| - 1]) then Some(p[|p| - 1]) else None
  }

  /**
   * What `Path::file_name` documents: no file name for the empty path, the
   * root, or a path ending in `..`; the final name of a path ending in one.
   */
  lemma FileNameCases(p: Path, name: string)
    requires IsName(name)
    ensures FileName([]) == None && FileName(["/"]) == None
    ensures FileName(p + [".."]) == None
    ensures FileName(p + [name]) == Some(name)
    ensures FileName(p + [name, ".."]) == None
  {
    assert (p + [name, ".."])[|p| + 1] == "..";
  }

  /** `PathBuf::push` of a single file name: it becomes the new last component. */
  function Push(p: Path, name: string): (r: Path)
    requires IsName(name)
    ensures |r| == |p| + 1 && r[..|p|] == p && FileName(r) == Some(name)
  {
    p + [name]
  }

  /**
   * `PathBuf::set_file_name`: replaces the file name when there is one,
   * otherwise pushes `name`.
   */
  function SetFileName(p: Path, name: string): (r: Path)
    requires IsName(name)
    ensures FileName(r) == Some(name)
    ensures FileName(p).Some? ==> |r| == |p| && r[..|p| - 1] == p[..|p| - 1]
    ensures FileName(p).None? ==> |r| == |p| + 1 && r[..|p|] == p
  {
    if FileName(p).Some? then p[..|p| - 1] + [name] else p + [name]
  }

  /** The brightness file of a backlight device directory (`watch`). */
  function WatchPath(device: Path): (r: Path)
    ensures |r| == |device| + 1 && r[..|device|] == device && r[|device|] == BrightnessFile
  {
    Push(device, BrightnessFile)
  }

  /** The file the handler reads the maximum from, next to the changed file. */
  function MaxBrightnessPath(p: Path): (r: Path)
    ensures FileName(r) == Some(MaxBrightnessFile)
  {
    SetFileName(p, MaxBrightnessFile)
  }

  /**
   * For a watched brightness file the handler reads `max_brightness` from
   * the same device directory.
   */
  lemma MaxBrightnessOfWatched(device: Path)
    ensures MaxBrightnessPath(WatchPath(device)) == device + [MaxBrightnessFile]
  {
    var w := WatchPath(device);
    assert w[..|w| - 1] == device;
  }

  /** Setting the same file name twice changes nothing the second time. */
  lemma SetFileNameIdempotent(p: Path, name: string)
    requires IsName(name)
    ensures SetFileName(SetFileName(p, name), name) == SetFileName(p, name)
  {
    var r := SetFileName(p, name);
    assert r[..|r| - 1] + [name] == r;
  }
}
