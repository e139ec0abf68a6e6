/**
 * The producer side: arming the polling watcher on every backlight device
 * (`watch`) and turning one change event into one reading on the channel
 * (`handler`).
 */
module Watching {
  import opened Options
  import opened Paths
  import opened Channels

  /** The path `read_dir` gives for the backlight entry `name`. */
  function DevicePath(name: string): Path
  {
    BacklightDir + [name]
  }

  /**
   * The brightness files of the listed devices, in listing order. An entry
   * that could not be read (`None`) is skipped, as `filter_map(|r| r.ok())`
   * does.
   */
  function BrightnessPaths(entries: seq<Option<string>>): (ps: seq<Path>)
    ensures |ps| == |Somes(entries)|
    ensures forall i | 0 <= i < |ps| ::
      ps[i] == WatchPath(DevicePath(Somes(entries)[i])) &&
      ps[i] == BacklightDir + [Somes(entries)[i], BrightnessFile]
  {
    if entries == [] then []
    else
      var here := if entries[0].Some? then [WatchPath(DevicePath(entries[0].value))] else [];
      var later := BrightnessPaths(entries[1..]);
      assert Somes(entries) == (if entries[0].Some? then [entries[0].value] else []) + Somes(entries[1..]);
      here + later
  }

  /**
   * For every path `watch` registers, the handler reads the maximum from
   * `max_brightness` in the same device directory.
   */
  lemma WatchedDeviceMaximum(entries: seq<Option<string>>, i: nat)
    requires i < |BrightnessPaths(entries)|
    ensures MaxBrightnessPath(BrightnessPaths(entries)[i]) ==
      BacklightDir + [Somes(entries)[i], MaxBrightnessFile]
  {
    MaxBrightnessOfWatched(DevicePath(Somes(entries)[i]));
  }

  /** Index of the first path in `ps` that is in `refused`, or `|ps|` if none is. */
  function FirstRefused(ps: seq<Path>, refused: set<Path>): (k: nat)
    ensures k <= |ps|
    ensures forall j | 0 <= j < k :: ps[j] !in refused
    ensures k < |ps| ==> ps[k] in refused
  {
    if ps == [] then 0
    else if ps[0] in refused then 0
    else 1 + FirstRefused(ps[1..], refused)
  }

  /**
   * The polling watcher, seen from the daemon: the paths it has been asked
   * to watch. Which paths it cannot watch is the library's decision, given
   * here as `refused`.
   */
  class Watcher {
    var watched: seq<Path>
    const refused: set<Path>

    constructor (refused: set<Path>)
      ensures watched == [] && this.refused == refused
    {
      watched := [];
      this.refused := refused;
    }

    /** `Watcher::watch` with `RecursiveMode::NonRecursive`. */
    method Watch(p: Path) returns (ok: bool)
      modifies this
      ensures ok == (p !in refused)
      ensures watched == old(watched) + (if ok then [p] else [])
    {
      ok := p !in refused;
      if ok {
        watched := watched + [p];
      }
    }
  }

  datatype WatchError = BacklightDirUnreadable | WatchRefused(path: Path)

  /**
   * The loop of `watch`: registers `ps` in order and stops at the first path
   * the watcher refuses, returning that error (`?`).
   */
  method RegisterAll(w: Watcher, ps: seq<Path>) returns (r: Outcome<WatchError>)
    modifies w
    ensures var k := FirstRefused(ps, w.refused);
      w.watched == old(w.watched) + ps[..k] &&
      r == if k == |ps| then Pass else Fail(WatchRefused(ps[k]))
  {
    ghost var k := FirstRefused(ps, w.refused);
    for i := 0 to |ps|
      invariant i <= k
      invariant w.watched == old(w.watched) + ps[..i]
    {
      var ok := w.Watch(ps[i]);
      if !ok {
        return Fail(WatchRefused(ps[i]));
      }
      assert ps[..i + 1] == ps[..i] + [ps[i]];
    }
    assert ps[..|ps|] == ps;
    return Pass;
  }

  /**
   * `watch`: lists the entry names of the backlight directory (`None` when
   * it cannot be read, where the source panics in `unwrap`), derives each
   * device's brightness path and registers them in order.
   */
  method WatchDevices(w: Watcher, listing: Option<seq<Option<string>>>) returns (r: Outcome<WatchError>)
    modifies w
    ensures listing.None? ==> r == Fail(BacklightDirUnreadable) && w.watched == old(w.watched)
    ensures listing.Some? ==>
      var ps := BrightnessPaths(listing.value);
      var k := FirstRefused(ps, w.refused);
      w.watched == old(w.watched) + ps[..k] &&
      r == if k == |ps| then Pass else Fail(WatchRefused(ps[k]))
  {
    if listing.None? {
      return Fail(BacklightDirUnreadable);
    }
    var ps := BrightnessPaths(listing.value);
    r := RegisterAll(w, ps);
  }

  /** What the handler sends: the two numbers it read; their quotient is the fraction. */
  datatype Level = Level(brightness: real, maxBrightness: real)

  /** A change event of the watcher: the paths it reports. */
  datatype Event = Event(paths: seq<Path>)

  /** Why the handler could not send a reading (the source panics in `unwrap`). */
  datatype HandlerError = NoPath | Unreadable(path: Path)

  /**
   * The contents of the files as the handler reads them: a path maps to the
   * number its trimmed text parses to; a path that cannot be read or parsed
   * is absent.
   */
  type Files = map<Path, real>

  /**
   * `handler` on one event: `None` for an error event (nothing is sent),
   * otherwise the reading it sends or the reason it stops. Only the last
   * path of the event is read, then the `max_brightness` file next to it.
   */
  function HandleEvent<E>(ev: Result<Event, E>, files: Files): (r: Option<Result<Level, HandlerError>>)
    ensures r.None? <==> ev.Err?
    ensures ev.Ok? && ev.value.paths == [] ==> r == Some(Err(NoPath))
    ensures r.Some? && r.value.Ok? ==>
      var ps := ev.value.paths;
      ps != [] && var p := ps[|ps| - 1];
      p in files && MaxBrightnessPath(p) in files &&
      r.value.value == Level(files[p], files[MaxBrightnessPath(p)])
    ensures ev.Ok? && ev.value.paths != [] ==>
      var p := ev.value.paths[|ev.value.paths| - 1];
      p in files && MaxBrightnessPath(p) in files ==>
      r == Some(Ok(Level(files[p], files[MaxBrightnessPath(p)])))
    ensures forall f :: r == Some(Err(Unreadable(f))) ==>
      var ps := ev.value.paths;
      ps != [] && f !in files && (f == ps[|ps| - 1] || f == MaxBrightnessPath(ps[|ps| - 1]))
  {
    match ev
    case Err(_) => None
    case Ok(event) =>
      if event.paths == [] then Some(Err(NoPath))
      else
        var p := event.paths[|event.paths| - 1];
        var maxPath := MaxBrightnessPath(p);
        if p !in files then Some(Err(Unreadable(p)))
        else if maxPath !in files then Some(Err(Unreadable(maxPath)))
        else Some(Ok(Level(files[p], files[maxPath])))
  }

  /** Paths reported before the last one in an event do not matter. */
  lemma OnlyLastPathMatters<E>(earlier: seq<Path>, earlier': seq<Path>, p: Path, files: Files)
    ensures HandleEvent<E>(Ok(Event(earlier + [p])), files) == HandleEvent<E>(Ok(Event(earlier' + [p])), files)
  {
    assert (earlier + [p])[|earlier + [p]| - 1] == p;
    assert (earlier' + [p])[|earlier' + [p]| - 1] == p;
  }

  /**
   * The handler reads nothing but the changed file and its `max_brightness`
   * sibling: files that agree on those two give the same outcome.
   */
  lemma HandlerReadsTwoFiles<E>(ev: Result<Event, E>, files: Files, files': Files)
    requires ev.Ok? && ev.value.paths != []
    requires var p := ev.value.paths[|ev.value.paths| - 1];
      forall f | f == p || f == MaxBrightnessPath(p) ::
        (f in files <==> f in files') && (f in files ==> files[f] == files'[f])
    ensures HandleEvent(ev, files) == HandleEvent(ev, files')
  {
    var p := ev.value.paths[|ev.value.paths| - 1];
    assert p in files <==> p in files';
    assert MaxBrightnessPath(p) in files <==> MaxBrightnessPath(p) in files';
  }

  /**
   * `handler`: takes the last path of an `Ok` event, reads the brightness
   * there and the maximum next to it, and sends one reading; an `Err` event
   * sends nothing.
   */
  method Handle<E>(ev: Result<Event, E>, files: Files, ch: Channel<Level>)
    returns (r: Option<Result<Level, HandlerError>>)
    modifies ch
    ensures r == HandleEvent(ev, files)
    ensures ch.queue == old(ch.queue) + (if r.Some? && r.value.Ok? then [r.value.value] else [])
  {
    if ev.Err? {
      return None;
    }
    var paths := ev.value.paths;
    if paths == [] {
      return Some(Err(NoPath));
    }
    var p := paths[|paths| - 1];
    paths := paths[..|paths| - 1];
    if p !in files {
      return Some(Err(Unreadable(p)));
    }
    var b := files[p];
    p := SetFileName(p, MaxBrightnessFile);
    if p !in files {
      return Some(Err(Unreadable(p)));
    }
    var max := files[p];
    ch.Send(Level(b, max));
    return Some(Ok(Level(b, max)));
  }
}
