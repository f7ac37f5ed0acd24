/**
 * openURL: hands a URL to a surf window through `_SURF_GO`. For a `file`
 * URL it first arms an inotify watch on the file, then writes the path, and
 * waits for surf to close the file, for a watcher error, or for the timeout.
 */
module Delivery {
  import opened Wrappers
  import opened Text
  import opened XModel

  /** The two fields of url.Parse's result that openURL reads. */
  datatype URL = URL(scheme: string, path: string)

  /** Which case of the select fires first. */
  datatype WaitOutcome = Event | WatchError(err: string) | Timeout

  /**
   * What the outside world answers during delivery: url.Parse, NewWatcher,
   * AddWatch, the `_SURF_GO` write, and the select.
   */
  datatype DeliveryEnv = DeliveryEnv(
    parsed: Result<URL, string>,
    watcherErr: Option<string>,
    addWatchErr: Option<string>,
    writeErr: Option<string>,
    wait: WaitOutcome)

  /** Delivery ends without error: a URL that parses is written, and for a `file` URL surf closes the file in time. */
  predicate DeliverySucceeds(env: DeliveryEnv) {
    && env.parsed.Ok?
    && env.writeErr.None?
    && (env.parsed.value.scheme == "file" ==>
          env.watcherErr.None? && env.addWatchErr.None? && env.wait == Event)
  }

  const TimeoutError: string := "timeout watching tempfile: "

  /**
   * The error openURL returns: url.Parse's; for a non-`file` URL the write's;
   * for a `file` URL the first failure among creating the watcher, adding
   * the watch and the write, then the watcher's error or the timeout, which
   * names the path.
   */
  function DeliveryError(env: DeliveryEnv): (e: Option<string>)
    ensures e.None? <==> DeliverySucceeds(env)
  {
    if env.parsed.Err? then Some(env.parsed.error)
    else if env.parsed.value.scheme != "file" then env.writeErr
    else if env.watcherErr.Some? then env.watcherErr
    else if env.addWatchErr.Some? then env.addWatchErr
    else if env.writeErr.Some? then env.writeErr
    else
      match env.wait
      case Event => None
      case WatchError(e) => Some(e)
      case Timeout => Some(TimeoutError + env.parsed.value.path)
  }

  /** Every property write in the trace is preceded by an AddWatch on `path`. */
  predicate WatchBeforeWrite(trace: seq<Effect>, path: string) {
    forall i :: 0 <= i < |trace| && trace[i].WriteProperty? ==>
      exists j :: 0 <= j < i && trace[j] == AddWatch(path, InClose)
  }

  /** A watcher that was opened is closed exactly once, as the last step. */
  predicate WatcherReleased(trace: seq<Effect>) {
    (exists i :: 0 <= i < |trace| && trace[i] == OpenWatcher) ==>
      && trace[0] == OpenWatcher
      && trace[|trace| - 1] == CloseWatcher
      && forall i :: 0 <= i < |trace| - 1 ==> trace[i] != CloseWatcher
  }

  /** At most one property write, and it is `_SURF_GO` on `w`. */
  predicate WritesOnlyGo(trace: seq<Effect>, w: XID) {
    && (forall i :: 0 <= i < |trace| && trace[i].WriteProperty? ==> trace[i].window == w && trace[i].name == SurfGo)
    && (forall i, j :: 0 <= i < j < |trace| && trace[i].WriteProperty? ==> !trace[j].WriteProperty?)
  }

  /** The text openURL hands to surf: the decoded path of a `file` URL, the URL as given otherwise. */
  function DeliveredText(u: string, url: URL): string {
    if url.scheme == "file" then url.path else u
  }

  /**
   * The requests openURL makes: nothing for a URL that does not parse; the
   * single `_SURF_GO` write for a non-`file` URL; for a `file` URL the
   * watcher's steps around the write of its path, up to the first failure.
   */
  function DeliveryTrace(w: XID, u: string, env: DeliveryEnv): (t: seq<Effect>)
    ensures forall i :: 0 <= i < |t| ==> IsDeliveryStep(t[i])
  {
    if env.parsed.Err? then []
    else if env.parsed.value.scheme != "file" then [WriteProperty(w, SurfGo, Utf8Encode(u))]
    else if env.watcherErr.Some? then []
    else
      var path := env.parsed.value.path;
      if env.addWatchErr.Some? then [OpenWatcher, AddWatch(path, InClose), CloseWatcher]
      else if env.writeErr.Some? then [OpenWatcher, AddWatch(path, InClose), WriteProperty(w, SurfGo, Utf8Encode(path)), CloseWatcher]
      else [OpenWatcher, AddWatch(path, InClose), WriteProperty(w, SurfGo, Utf8Encode(path)), AwaitEvent, CloseWatcher]
  }

  /**
   * openURL. A URL that does not parse writes nothing. A non-`file` URL is
   * written verbatim and no watcher is created. A `file` URL writes its path
   * only after AddWatch succeeded, then waits: the close event is success, a
   * watcher error is returned, and the timeout is an error naming the path.
   * Every step after a watcher is created ends by closing it.
   */
  method OpenURL(w: XID, u: string, env: DeliveryEnv) returns (err: Option<string>, trace: seq<Effect>)
    ensures trace == DeliveryTrace(w, u, env)
    ensures err == DeliveryError(env)
    ensures forall i :: 0 <= i < |trace| ==> IsDeliveryStep(trace[i])
    ensures WatcherReleased(trace)
    ensures WritesOnlyGo(trace, w)
    ensures env.parsed.Ok? ==> DeliversOnlyValue(trace, Utf8Encode(DeliveredText(u, env.parsed.value)))
    ensures err.None? <==> DeliverySucceeds(env)
    ensures err.None? ==> Delivers(trace, w)
    ensures env.parsed.Err? ==> err == Some(env.parsed.error) && trace == []
    ensures env.parsed.Ok? && env.parsed.value.scheme != "file" ==>
      err == env.writeErr && trace == [WriteProperty(w, SurfGo, Utf8Encode(u))]
    ensures env.parsed.Ok? && env.parsed.value.scheme == "file" ==>
      var path := env.parsed.value.path;
      && WatchBeforeWrite(trace, path)
      && (env.watcherErr.Some? ==> err == env.watcherErr && trace == [])
      && (env.watcherErr.None? && env.addWatchErr.Some? ==>
            err == env.addWatchErr && trace == [OpenWatcher, AddWatch(path, InClose), CloseWatcher])
      && (env.watcherErr.None? && env.addWatchErr.None? && env.writeErr.Some? ==>
            err == env.writeErr
            && trace == [OpenWatcher, AddWatch(path, InClose), WriteProperty(w, SurfGo, Utf8Encode(path)), CloseWatcher])
      && (env.watcherErr.None? && env.addWatchErr.None? && env.writeErr.None? ==>
            && trace == [OpenWatcher, AddWatch(path, InClose), WriteProperty(w, SurfGo, Utf8Encode(path)), AwaitEvent, CloseWatcher]
            && (env.wait == Event ==> err.None?)
            && (env.wait.WatchError? ==> err == Some(env.wait.err))
            && (env.wait == Timeout ==> err == Some(TimeoutError + path)))
  {
    if env.parsed.Err? {
      return Some(env.parsed.error), [];
    }
    var parsed := env.parsed.value;
    if parsed.scheme != "file" {
      trace := [WriteProperty(w, SurfGo, Utf8Encode(u))];
      assert trace[0].WriteProperty?;
      return env.writeErr, trace;
    }
    if env.watcherErr.Some? {
      return env.watcherErr, [];
    }
    // From here on, the deferred Close runs on every return.
    var watch := AddWatch(parsed.path, InClose);
    if env.addWatchErr.Some? {
      return env.addWatchErr, [OpenWatcher, watch, CloseWatcher];
    }
    var write := WriteProperty(w, SurfGo, Utf8Encode(parsed.path));
    if env.writeErr.Some? {
      trace := [OpenWatcher, watch, write, CloseWatcher];
      assert trace[1] == watch && trace[2] == write;
      return env.writeErr, trace;
    }
    trace := [OpenWatcher, watch, write, AwaitEvent, CloseWatcher];
    assert trace[1] == watch && trace[2] == write;
    match env.wait
    case Event => err := None;
    case WatchError(e) => err := Some(e);
    case Timeout => err := Some(TimeoutError + parsed.path);
  }
}
