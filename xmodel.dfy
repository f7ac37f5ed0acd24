/**
 * The environment the program talks to, as values: X window identifiers,
 * the replies to property reads, one record per top-level client, and the
 * trace of requests the program makes to the X server, the process table
 * and inotify.
 */
module XModel {
  import opened Text

  /** xproto.Window: a 32-bit X resource identifier. */
  type XID = n: int | 0 <= n < 0x1_0000_0000

  const MaxUint32: int := 0xFFFF_FFFF

  /** The property surf keeps its current URI in; its presence marks a surf window. */
  const SurfUri: string := "_SURF_URI"
  /** The property surf watches for a URI to load. */
  const SurfGo: string := "_SURF_GO"
  /** The tag this program writes on the windows it launches. */
  const StickerProp: string := "_STICKER"

  /** What xprop.GetProperty gave for one property of one window. */
  datatype PropReply = Prop(value: seq<byte>) | NoProp | ReadFailed(reason: string)

  /** One entry of the window manager's client list, with the replies to the two reads made on it. */
  datatype WindowRec = WindowRec(id: XID, surfUri: PropReply, sticker: PropReply)

  /** inotify's IN_CLOSE: IN_CLOSE_WRITE (0x8) | IN_CLOSE_NOWRITE (0x10). */
  const InClose: int := 0x18

  /** A request made to the outside world, in the order it is made. */
  datatype Effect =
    | ListClients                                             // ewmh.ClientListGet
    | ReadProperty(window: XID, name: string)                 // xprop.GetProperty
    | Spawn(argv: seq<string>)                                // exec.Cmd.Start
    | WriteProperty(window: XID, name: string, value: seq<byte>)  // xprop.ChangeProp, format 8, type STRING
    | OpenWatcher                                             // inotify.NewWatcher, when it succeeds
    | AddWatch(path: string, mask: int)                       // Watcher.AddWatch
    | AwaitEvent                                              // the select on event, error and timeout
    | CloseWatcher                                            // Watcher.Close (deferred)

  /** The requests findRunningSurf makes: it only asks. */
  predicate IsQuery(e: Effect) {
    e.ListClients? || e.ReadProperty?
  }

  /** The steps openURL takes: property writes and watcher operations. */
  predicate IsDeliveryStep(e: Effect) {
    e.WriteProperty? || e.OpenWatcher? || e.AddWatch? || e.AwaitEvent? || e.CloseWatcher?
  }

  predicate Spawned(trace: seq<Effect>) {
    exists i :: 0 <= i < |trace| && trace[i].Spawn?
  }

  /** How many times the trace starts a process. */
  function SpawnCount(trace: seq<Effect>): (n: nat)
    ensures n <= |trace|
    ensures n == 0 <==> !Spawned(trace)
  {
    if trace == [] then 0
    else
      var rest := SpawnCount(trace[1..]);
      assert Spawned(trace[1..]) ==> Spawned(trace) by {
        if Spawned(trace[1..]) {
          var i :| 0 <= i < |trace[1..]| && trace[1..][i].Spawn?;
          assert trace[i + 1].Spawn?;
        }
      }
      assert Spawned(trace) && !trace[0].Spawn? ==> Spawned(trace[1..]) by {
        if Spawned(trace) && !trace[0].Spawn? {
          var i :| 0 <= i < |trace| && trace[i].Spawn?;
          assert trace[1..][i - 1].Spawn?;
        }
      }
      (if trace[0].Spawn? then 1 else 0) + rest
  }

  lemma {:induction false} SpawnCountAppend(a: seq<Effect>, b: seq<Effect>)
    ensures SpawnCount(a + b) == SpawnCount(a) + SpawnCount(b)
  {
    if a != [] {
      assert (a + b)[1..] == a[1..] + b;
      SpawnCountAppend(a[1..], b);
    } else {
      assert a + b == b;
    }
  }

  /** The trace writes `_SURF_GO` only on window `w`. */
  predicate DeliversOnlyTo(trace: seq<Effect>, w: XID) {
    forall i :: 0 <= i < |trace| && trace[i].WriteProperty? && trace[i].name == SurfGo ==> trace[i].window == w
  }

  /** The trace writes `_SURF_GO` on window `w` at least once. */
  predicate Delivers(trace: seq<Effect>, w: XID) {
    exists i :: 0 <= i < |trace| && trace[i].WriteProperty? && trace[i].name == SurfGo && trace[i].window == w
  }

  /** Every `_SURF_GO` write in the trace carries the bytes `v`. */
  predicate DeliversOnlyValue(trace: seq<Effect>, v: seq<byte>) {
    forall i :: 0 <= i < |trace| && trace[i].WriteProperty? && trace[i].name == SurfGo ==> trace[i].value == v
  }

  lemma SpawnedAppend(a: seq<Effect>, b: seq<Effect>)
    ensures Spawned(a + b) <==> Spawned(a) || Spawned(b)
  {
    if Spawned(a + b) {
      var i :| 0 <= i < |a + b| && (a + b)[i].Spawn?;
      if i >= |a| {
        assert b[i - |a|].Spawn?;
      }
    }
    if Spawned(a) {
      var i :| 0 <= i < |a| && a[i].Spawn?;
      assert (a + b)[i].Spawn?;
    }
    if Spawned(b) {
      var i :| 0 <= i < |b| && b[i].Spawn?;
      assert (a + b)[|a| + i].Spawn?;
    }
  }

  lemma DeliversOnlyToAppend(a: seq<Effect>, b: seq<Effect>, w: XID)
    ensures DeliversOnlyTo(a + b, w) <==> DeliversOnlyTo(a, w) && DeliversOnlyTo(b, w)
  {
    if DeliversOnlyTo(a + b, w) {
      forall i | 0 <= i < |a| && a[i].WriteProperty? && a[i].name == SurfGo ensures a[i].window == w {
        assert (a + b)[i] == a[i];
      }
      forall i | 0 <= i < |b| && b[i].WriteProperty? && b[i].name == SurfGo ensures b[i].window == w {
        assert (a + b)[|a| + i] == b[i];
      }
    }
  }

  lemma DeliversOnlyValueAppend(a: seq<Effect>, b: seq<Effect>, v: seq<byte>)
    ensures DeliversOnlyValue(a + b, v) <==> DeliversOnlyValue(a, v) && DeliversOnlyValue(b, v)
  {
    if DeliversOnlyValue(a + b, v) {
      forall i | 0 <= i < |a| && a[i].WriteProperty? && a[i].name == SurfGo ensures a[i].value == v {
        assert (a + b)[i] == a[i];
      }
      forall i | 0 <= i < |b| && b[i].WriteProperty? && b[i].name == SurfGo ensures b[i].value == v {
        assert (a + b)[|a| + i] == b[i];
      }
    }
  }

  lemma DeliversAppend(a: seq<Effect>, b: seq<Effect>, w: XID)
    requires Delivers(b, w)
    ensures Delivers(a + b, w)
  {
    var i :| 0 <= i < |b| && b[i].WriteProperty? && b[i].name == SurfGo && b[i].window == w;
    assert (a + b)[|a| + i] == b[i];
  }

  /** Every `_SURF_GO` write in the trace comes after the effect `first`. */
  predicate PrecedesDelivery(trace: seq<Effect>, first: Effect) {
    forall i :: 0 <= i < |trace| && trace[i].WriteProperty? && trace[i].name == SurfGo ==>
      exists j :: 0 <= j < i && trace[j] == first
  }

  lemma PrecedesDeliveryAppend(a: seq<Effect>, b: seq<Effect>, first: Effect, k: nat)
    requires k < |a| && a[k] == first
    requires forall i :: 0 <= i < |a| && a[i].WriteProperty? ==> a[i].name != SurfGo
    ensures PrecedesDelivery(a + b, first)
  {
    forall i | 0 <= i < |a + b| && (a + b)[i].WriteProperty? && (a + b)[i].name == SurfGo
      ensures exists j :: 0 <= j < i && (a + b)[j] == first
    {
      assert (a + b)[k] == first;
    }
  }
}
