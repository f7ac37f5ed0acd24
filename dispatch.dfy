/**
 * The program as a whole: validate the sticker, connect, locate a surf
 * window carrying the sticker, launch one when none is found, and deliver
 * the URL to the window located or launched. Every failure is fatal.
 */
module Dispatch {
  import opened Wrappers
  import opened Text
  import opened XModel
  import opened Sticker
  import opened Decimal
  import opened Locator
  import opened Launcher
  import opened Delivery

  /** Everything the outside world answers during one run. */
  datatype Env = Env(
    connErr: Option<string>,
    clients: Result<seq<WindowRec>, string>,
    launch: LaunchEnv,
    delivery: DeliveryEnv)

  /** How the process ends: normally, or through log.Fatal with its message. */
  datatype Exit = Success | Fatal(msg: string)

  const UsageError: string := "surfsticker requires a URL as its argument"

  /** The prefixes main puts before the error of each stage it reports. */
  const FindStage: string := "findRunningSurf: "
  const StartStage: string := "startSurf: "
  const OpenStage: string := "openURL: "

  /** The run gets as far as findRunningSurf: the sticker is valid, X is reachable and a URL was given. */
  predicate ReachesLocate(sticker: string, args: seq<string>, env: Env) {
    ValidateSticker(sticker).None? && env.connErr.None? && |args| >= 1
  }

  /** findRunningSurf succeeds and reports no window. */
  predicate NothingLocated(sticker: string, args: seq<string>, env: Env) {
    ReachesLocate(sticker, args, env) && env.clients.Ok?
    && FirstMatch(env.clients.value, sticker) == |env.clients.value|
  }

  /** findRunningSurf succeeds and reports a window. */
  predicate SomethingLocated(sticker: string, args: seq<string>, env: Env) {
    ReachesLocate(sticker, args, env) && env.clients.Ok?
    && FirstMatch(env.clients.value, sticker) < |env.clients.value|
  }

  /** No effect in the trace writes `_SURF_GO`. */
  predicate NoDelivery(trace: seq<Effect>) {
    forall i :: 0 <= i < |trace| && trace[i].WriteProperty? ==> trace[i].name != SurfGo
  }

  /** The scan of findRunningSurf only queries: it launches nothing and delivers nothing. */
  lemma ScanTraceHasNoWrites(ws: seq<WindowRec>, n: nat)
    requires n <= |ws|
    ensures NoDelivery(ScanTrace(ws, n))
    ensures !Spawned(ScanTrace(ws, n))
  {
    ScanTraceOnlyQueries(ws, n);
  }

  /** A trace that writes no `_SURF_GO` carries any value to it. */
  lemma NoDeliveryOnlyValue(t: seq<Effect>, v: seq<byte>)
    requires NoDelivery(t)
    ensures DeliversOnlyValue(t, v)
  {
  }

  /** A delivery trace launches nothing. */
  lemma DeliveryNotSpawned(t: seq<Effect>)
    requires forall i :: 0 <= i < |t| ==> IsDeliveryStep(t[i])
    ensures !Spawned(t)
  {
  }

  lemma NoDeliveryAppend(a: seq<Effect>, b: seq<Effect>)
    requires NoDelivery(a) && NoDelivery(b)
    ensures NoDelivery(a + b)
  {
    var t := a + b;
    forall i | 0 <= i < |t| && t[i].WriteProperty?
      ensures t[i].name != SurfGo
    {
      if i < |a| { assert t[i] == a[i]; } else { assert t[i] == b[i - |a|]; }
    }
  }

  /**
   * The window main hands the URL to: the first one located or, when none
   * is, the one surf announced; none when findRunningSurf or startSurf fails.
   */
  function TargetWindow(sticker: string, env: Env): (w: Option<XID>)
    ensures w.Some? <==>
      env.clients.Ok? && (FirstMatch(env.clients.value, sticker) < |env.clients.value| || LaunchSucceeds(env.launch))
  {
    if env.clients.Err? then None
    else
      var ws := env.clients.value;
      var k := FirstMatch(ws, sticker);
      if k < |ws| then Some(ws[k].id)
      else if LaunchSucceeds(env.launch) then Some(DecimalValue(env.launch.firstLine))
      else None
  }

  /**
   * The requests of the find-or-launch step: the scan up to the first match
   * and nothing more, or, when nothing matches, the whole scan followed by
   * startSurf's requests.
   */
  function LocateTrace(sticker: string, env: Env): (t: seq<Effect>)
    ensures |t| >= 1 && t[0] == ListClients
  {
    if env.clients.Err? then [ListClients]
    else
      var ws := env.clients.value;
      var k := FirstMatch(ws, sticker);
      if k < |ws| then ScanTrace(ws, k + 1) else ScanTrace(ws, |ws|) + LaunchTrace(sticker, env.launch)
  }

  /** Every request main makes once it has the URL `u`: openURL runs only on the target window. */
  function MainTrace(sticker: string, u: string, env: Env): (t: seq<Effect>)
    ensures |t| >= 1 && t[0] == ListClients
  {
    var target := TargetWindow(sticker, env);
    LocateTrace(sticker, env) + (if target.Some? then DeliveryTrace(target.value, u, env.delivery) else [])
  }

  /** surf is started once when no window matches and StdoutPipe succeeds, and never otherwise. */
  lemma MainTraceSpawnsOnce(sticker: string, u: string, env: Env)
    ensures SpawnCount(MainTrace(sticker, u, env)) ==
      if env.clients.Ok? && FirstMatch(env.clients.value, sticker) == |env.clients.value| && env.launch.pipeErr.None?
      then 1 else 0
  {
    var target := TargetWindow(sticker, env);
    var delivered := if target.Some? then DeliveryTrace(target.value, u, env.delivery) else [];
    DeliveryNotSpawned(delivered);
    SpawnCountAppend(LocateTrace(sticker, env), delivered);
    if env.clients.Ok? {
      var ws := env.clients.value;
      var k := FirstMatch(ws, sticker);
      ScanTraceHasNoWrites(ws, if k < |ws| then k + 1 else k);
      if k == |ws| {
        SpawnCountAppend(ScanTrace(ws, |ws|), LaunchTrace(sticker, env.launch));
      }
    } else {
      assert !Spawned([ListClients]);
    }
  }

  /** When findRunningSurf or startSurf fails, `_SURF_GO` is never written. */
  lemma FailedStageDeliversNothing(sticker: string, u: string, env: Env)
    requires TargetWindow(sticker, env).None?
    ensures NoDelivery(MainTrace(sticker, u, env))
  {
    assert MainTrace(sticker, u, env) == LocateTrace(sticker, env);
    if env.clients.Ok? {
      var ws := env.clients.value;
      ScanTraceHasNoWrites(ws, |ws|);
      NoDeliveryAppend(ScanTrace(ws, |ws|), LaunchTrace(sticker, env.launch));
    }
  }

  /** The trace of main up to a launch: the whole scan, then startSurf's steps. */
  lemma LaunchAfterScan(ws: seq<WindowRec>, sticker: string, env: LaunchEnv, launched: seq<Effect>)
    requires NoDelivery(launched)
    requires Spawned(launched) <==> env.pipeErr.None?
    requires env.pipeErr.None? ==> |launched| >= 1 && launched[0] == Spawn(SurfArgv(sticker))
    ensures var t := ScanTrace(ws, |ws|) + launched;
      && NoDelivery(t)
      && (Spawned(t) <==> env.pipeErr.None?)
      && (env.pipeErr.None? ==> |t| >= 2 * |ws| + 2 && t[..2 * |ws| + 2] == ScanTrace(ws, |ws|) + [Spawn(SurfArgv(sticker))])
      && (|launched| > 0 ==> t[|t| - 1] == launched[|launched| - 1])
  {
    var found := ScanTrace(ws, |ws|);
    ScanTraceHasNoWrites(ws, |ws|);
    SpawnedAppend(found, launched);
    NoDeliveryAppend(found, launched);
    if env.pipeErr.None? {
      assert (found + launched)[..|found| + 1] == found + [Spawn(SurfArgv(sticker))];
    }
  }

  /**
   * The launch step of main, taken when findRunningSurf reports no window:
   * startSurf, whose error becomes fatal under the stage's name.
   */
  method LaunchStage(sticker: string, env: LaunchEnv) returns (surfID: Option<XID>, fatal: Option<string>, launched: seq<Effect>)
    ensures launched == LaunchTrace(sticker, env)
    ensures surfID.Some? <==> fatal.None?
    ensures fatal.None? <==> LaunchSucceeds(env)
    ensures fatal.Some? ==> LaunchError(env).Some? && fatal == Some(StartStage + LaunchError(env).value)
    ensures NoDelivery(launched)
    ensures Spawned(launched) <==> env.pipeErr.None?
    ensures env.pipeErr.None? ==> |launched| >= 1 && launched[0] == Spawn(SurfArgv(sticker))
    ensures env.pipeErr.None? && env.startErr.None? && IsUint32(env.firstLine) ==>
      && launched[|launched| - 1] == WriteProperty(DecimalValue(env.firstLine), StickerProp, Utf8Encode(sticker))
      && (fatal.None? ==> surfID == Some(DecimalValue(env.firstLine)))
  {
    var id, err;
    id, err, launched := StartSurf(sticker, env);
    assert StickerProp != SurfGo;
    if env.pipeErr.None? {
      assert launched[0].Spawn?;
    }
    if err.Some? {
      return None, Some(StartStage + err.value), launched;
    }
    return id, None, launched;
  }

  /**
   * The find-or-launch step of main: findRunningSurf, then startSurf when it
   * reports no window. A failure of either becomes the fatal message of its
   * stage; otherwise the window to deliver to is returned.
   */
  method LocateOrLaunch(sticker: string, env: Env) returns (surfID: Option<XID>, fatal: Option<string>, trace: seq<Effect>)
    ensures trace == LocateTrace(sticker, env) && surfID == TargetWindow(sticker, env)
    ensures env.clients.Ok? && FirstMatch(env.clients.value, sticker) < |env.clients.value| ==>
      trace == ScanTrace(env.clients.value, FirstMatch(env.clients.value, sticker) + 1)
    ensures surfID.Some? <==> fatal.None?
    ensures fatal.None? <==>
      env.clients.Ok? && (FirstMatch(env.clients.value, sticker) < |env.clients.value| || LaunchSucceeds(env.launch))
    ensures NoDelivery(trace)
    ensures env.clients.Err? ==> fatal == Some(FindStage + env.clients.error) && trace == [ListClients]
    ensures env.clients.Ok? && fatal.Some? ==>
      LaunchError(env.launch).Some? && fatal == Some(StartStage + LaunchError(env.launch).value)
    ensures Spawned(trace) <==>
      env.clients.Ok? && FirstMatch(env.clients.value, sticker) == |env.clients.value| && env.launch.pipeErr.None?
    ensures Spawned(trace) ==>
      var ws := env.clients.value;
      |trace| >= 2 * |ws| + 2 && trace[..2 * |ws| + 2] == ScanTrace(ws, |ws|) + [Spawn(SurfArgv(sticker))]
    ensures env.clients.Ok? && FirstMatch(env.clients.value, sticker) < |env.clients.value| ==>
      surfID == Some(env.clients.value[FirstMatch(env.clients.value, sticker)].id)
    ensures env.clients.Ok? && FirstMatch(env.clients.value, sticker) == |env.clients.value|
            && env.launch.pipeErr.None? && env.launch.startErr.None? && IsUint32(env.launch.firstLine) ==>
      && trace[|trace| - 1] == WriteProperty(DecimalValue(env.launch.firstLine), StickerProp, Utf8Encode(sticker))
      && (fatal.None? ==> surfID == Some(DecimalValue(env.launch.firstLine)))
  {
    var found, ferr;
    surfID, ferr, found := FindRunningSurf(sticker, env.clients);
    trace := found;
    if ferr.Some? {
      return None, Some(FindStage + ferr.value), trace;
    }
    var ws := env.clients.value;
    var k := FirstMatch(ws, sticker);
    ScanTraceHasNoWrites(ws, if k < |ws| then k + 1 else k);
    if surfID.Some? {
      return surfID, None, trace;
    }
    var launched;
    surfID, fatal, launched := LaunchStage(sticker, env.launch);
    LaunchAfterScan(ws, sticker, env.launch, launched);
    trace := found + launched;
  }

  /**
   * Appending openURL's steps to the find-or-launch trace: the launch and
   * the prefixes of the first part stay as they were, and every `_SURF_GO`
   * write, all of them made by openURL, comes after the last step of the
   * first part.
   */
  lemma DeliveryFollows(target: seq<Effect>, delivered: seq<Effect>, w: XID, n: nat)
    requires NoDelivery(target) && n <= |target|
    requires forall i :: 0 <= i < |delivered| ==> IsDeliveryStep(delivered[i])
    requires WritesOnlyGo(delivered, w)
    ensures Spawned(target + delivered) <==> Spawned(target)
    ensures DeliversOnlyTo(target + delivered, w)
    ensures Delivers(delivered, w) ==> Delivers(target + delivered, w)
    ensures (target + delivered)[..n] == target[..n]
    ensures |target| > 0 ==> PrecedesDelivery(target + delivered, target[|target| - 1])
  {
    DeliveryNotSpawned(delivered);
    SpawnedAppend(target, delivered);
    DeliversOnlyToAppend(target, delivered, w);
    if Delivers(delivered, w) {
      DeliversAppend(target, delivered, w);
    }
    if |target| > 0 {
      PrecedesDeliveryAppend(target, delivered, target[|target| - 1], |target| - 1);
    }
  }

  /**
   * The last part of main: find or launch the window, then deliver `u` to
   * it. The URL goes only to the window located or, failing that, to the
   * window surf announced, after that window was tagged; it carries the URL
   * (the path of a `file` URL); each failure ends the run with its stage's
   * name, and a run that ends normally has delivered the URL.
   */
  method LocateAndDeliver(sticker: string, u: string, env: Env) returns (exit: Exit, trace: seq<Effect>)
    ensures trace == MainTrace(sticker, u, env)
    ensures SpawnCount(trace) ==
      if env.clients.Ok? && FirstMatch(env.clients.value, sticker) == |env.clients.value| && env.launch.pipeErr.None?
      then 1 else 0
    ensures TargetWindow(sticker, env).None? ==> NoDelivery(trace)
    ensures exit == Success <==>
      && env.clients.Ok?
      && (FirstMatch(env.clients.value, sticker) < |env.clients.value| || LaunchSucceeds(env.launch))
      && DeliverySucceeds(env.delivery)
    ensures env.clients.Err? ==> exit == Fatal(FindStage + env.clients.error) && trace == [ListClients]
    ensures Spawned(trace) <==>
      env.clients.Ok? && FirstMatch(env.clients.value, sticker) == |env.clients.value| && env.launch.pipeErr.None?
    ensures Spawned(trace) ==>
      var ws := env.clients.value;
      |trace| >= 2 * |ws| + 2 && trace[..2 * |ws| + 2] == ScanTrace(ws, |ws|) + [Spawn(SurfArgv(sticker))]
    ensures env.clients.Ok? && FirstMatch(env.clients.value, sticker) < |env.clients.value| ==>
      var w := env.clients.value[FirstMatch(env.clients.value, sticker)].id;
      DeliversOnlyTo(trace, w) && (exit == Success ==> Delivers(trace, w))
    ensures env.clients.Ok? && FirstMatch(env.clients.value, sticker) == |env.clients.value|
            && env.launch.pipeErr.None? && env.launch.startErr.None? && IsUint32(env.launch.firstLine) ==>
      var w := DecimalValue(env.launch.firstLine);
      && DeliversOnlyTo(trace, w)
      && (exit == Success ==> Delivers(trace, w))
      && PrecedesDelivery(trace, WriteProperty(w, StickerProp, Utf8Encode(sticker)))
    ensures env.clients.Ok? && FirstMatch(env.clients.value, sticker) == |env.clients.value|
            && !LaunchSucceeds(env.launch) ==>
      exit == Fatal(StartStage + LaunchError(env.launch).value)
    ensures env.delivery.parsed.Ok? ==>
      DeliversOnlyValue(trace, Utf8Encode(DeliveredText(u, env.delivery.parsed.value)))
    ensures env.clients.Ok?
            && (FirstMatch(env.clients.value, sticker) < |env.clients.value| || LaunchSucceeds(env.launch))
            && !DeliverySucceeds(env.delivery) ==>
      exit == Fatal(OpenStage + DeliveryError(env.delivery).value)
  {
    var surfID, fatal, target := LocateOrLaunch(sticker, env);
    MainTraceSpawnsOnce(sticker, u, env);
    if fatal.Some? {
      FailedStageDeliversNothing(sticker, u, env);
      if env.delivery.parsed.Ok? {
        NoDeliveryOnlyValue(target, Utf8Encode(DeliveredText(u, env.delivery.parsed.value)));
      }
      return Fatal(fatal.value), target;
    }
    var w := surfID.value;
    var oerr, delivered := OpenURL(w, u, env.delivery);
    var n := if Spawned(target) then 2 * |env.clients.value| + 2 else 0;
    DeliveryFollows(target, delivered, w, n);
    if env.delivery.parsed.Ok? {
      var v := Utf8Encode(DeliveredText(u, env.delivery.parsed.value));
      NoDeliveryOnlyValue(target, v);
      DeliversOnlyValueAppend(target, delivered, v);
    }
    trace := target + delivered;
    if oerr.Some? {
      return Fatal(OpenStage + oerr.value), trace;
    }
    return Success, trace;
  }

  /**
   * init and main: the sticker is validated, X is connected to and a URL
   * must be given before anything is asked of the window manager; the rest
   * is LocateAndDeliver.
   */
  method Run(sticker: string, args: seq<string>, env: Env) returns (exit: Exit, trace: seq<Effect>)
    ensures ReachesLocate(sticker, args, env) ==> trace == MainTrace(sticker, args[0], env)
    ensures SpawnCount(trace) == if NothingLocated(sticker, args, env) && env.launch.pipeErr.None? then 1 else 0
    ensures TargetWindow(sticker, env).None? ==> NoDelivery(trace)
    ensures exit == Success <==>
      && ReachesLocate(sticker, args, env) && env.clients.Ok?
      && (FirstMatch(env.clients.value, sticker) < |env.clients.value| || LaunchSucceeds(env.launch))
      && DeliverySucceeds(env.delivery)
    ensures ValidateSticker(sticker).Some? ==> exit == Fatal(ValidateSticker(sticker).value) && trace == []
    ensures !ReachesLocate(sticker, args, env) ==> exit.Fatal? && trace == []
    ensures ReachesLocate(sticker, args, env) && env.clients.Err? ==>
      exit == Fatal(FindStage + env.clients.error) && trace == [ListClients]
    ensures Spawned(trace) <==> NothingLocated(sticker, args, env) && env.launch.pipeErr.None?
    ensures Spawned(trace) ==>
      var ws := env.clients.value;
      |trace| >= 2 * |ws| + 2 && trace[..2 * |ws| + 2] == ScanTrace(ws, |ws|) + [Spawn(SurfArgv(sticker))]
    ensures SomethingLocated(sticker, args, env) ==>
      var ws := env.clients.value;
      var w := ws[FirstMatch(ws, sticker)].id;
      DeliversOnlyTo(trace, w) && (exit == Success ==> Delivers(trace, w))
    ensures NothingLocated(sticker, args, env) && env.launch.pipeErr.None? && env.launch.startErr.None?
            && IsUint32(env.launch.firstLine) ==>
      var w := DecimalValue(env.launch.firstLine);
      && DeliversOnlyTo(trace, w)
      && (exit == Success ==> Delivers(trace, w))
      && PrecedesDelivery(trace, WriteProperty(w, StickerProp, Utf8Encode(sticker)))
    ensures NothingLocated(sticker, args, env) && !LaunchSucceeds(env.launch) ==>
      exit == Fatal(StartStage + LaunchError(env.launch).value)
    ensures |args| >= 1 && env.delivery.parsed.Ok? ==>
      DeliversOnlyValue(trace, Utf8Encode(DeliveredText(args[0], env.delivery.parsed.value)))
    ensures ReachesLocate(sticker, args, env) && env.clients.Ok?
            && (FirstMatch(env.clients.value, sticker) < |env.clients.value| || LaunchSucceeds(env.launch))
            && !DeliverySucceeds(env.delivery) ==>
      exit == Fatal(OpenStage + DeliveryError(env.delivery).value)
  {
    var verr := ValidateSticker(sticker);
    if verr.Some? {
      return Fatal(verr.value), [];
    }
    if env.connErr.Some? {
      return Fatal(env.connErr.value), [];
    }
    if |args| < 1 {
      return Fatal(UsageError), [];
    }
    exit, trace := LocateAndDeliver(sticker, args[0], env);
  }

  /**
   * A run with sticker "work", an empty client list and surf announcing
   * window 4194309: surf is launched, and the URL is delivered to that window.
   */
  method LaunchThenDeliverScenario() {
    var u := "https://example.com";
    var sticker := "work";
    assert ValidateSticker(sticker).None? by {
      assert forall j :: 0 <= j < |sticker| ==> IsLetter(sticker[j]);
    }
    var env := Env(
      None,
      Ok([]),
      LaunchEnv(None, None, "4194309", None),
      DeliveryEnv(Ok(URL("https", "")), None, None, None, Timeout));
    AnnouncedId();
    assert ReachesLocate(sticker, [u], env) && NothingLocated(sticker, [u], env);
    assert LaunchSucceeds(env.launch) && DeliverySucceeds(env.delivery);
    var exit, trace := Run(sticker, [u], env);
    assert exit == Success;
    assert Spawned(trace);
    assert Delivers(trace, 4194309) && DeliversOnlyTo(trace, 4194309);
    var i :| 0 <= i < |trace| && trace[i].WriteProperty? && trace[i].name == SurfGo && trace[i].window == 4194309;
    assert trace[i].value == Utf8Encode(u);
  }
}
