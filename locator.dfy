/**
 * findRunningSurf: scans the window manager's client list for a surf window
 * carrying the requested sticker.
 */
module Locator {
  import opened Wrappers
  import opened Text
  import opened XModel

  /** The `_STICKER` bytes as the scan sees them: an absent or unreadable tag reads as no bytes. */
  function TagBytes(reply: PropReply): seq<byte> {
    if reply.Prop? then reply.value else []
  }

  /**
   * A window is the one sought when its `_SURF_URI` read succeeded and its
   * tag, each byte widened to a rune, spells the sticker.
   */
  predicate Matches(w: WindowRec, sticker: string): (m: bool)
    ensures m ==> w.surfUri.Prop? && |TagBytes(w.sticker)| == |sticker|
  {
    w.surfUri.Prop? && Widen(TagBytes(w.sticker)) == sticker
  }

  /**
   * The comparison, byte by byte: a surf window matches exactly when its tag
   * has one byte per rune of the sticker, each equal to that rune's code point.
   */
  lemma MatchesBytewise(w: WindowRec, sticker: string)
    ensures Matches(w, sticker) <==>
      && w.surfUri.Prop?
      && |TagBytes(w.sticker)| == |sticker|
      && forall i :: 0 <= i < |sticker| ==> TagBytes(w.sticker)[i] == sticker[i] as int
  {
    var tag := Widen(TagBytes(w.sticker));
    if |tag| == |sticker| && forall i :: 0 <= i < |sticker| ==> TagBytes(w.sticker)[i] == sticker[i] as int {
      assert forall i :: 0 <= i < |sticker| ==> tag[i] == sticker[i];
    }
  }

  /** The position of the first matching window in client-list order, or |ws| when none matches. */
  function FirstMatch(ws: seq<WindowRec>, sticker: string): (k: nat)
    ensures k <= |ws|
    ensures forall j :: 0 <= j < k ==> !Matches(ws[j], sticker)
    ensures k < |ws| ==> Matches(ws[k], sticker)
  {
    if ws == [] then 0
    else if Matches(ws[0], sticker) then 0
    else 1 + FirstMatch(ws[1..], sticker)
  }

  /** The two property reads made on one window. */
  function WindowReads(w: WindowRec): seq<Effect> {
    [ReadProperty(w.id, SurfUri), ReadProperty(w.id, StickerProp)]
  }

  /** The requests of a scan that has read the first `n` windows: the client list, then their properties in order. */
  function ScanTrace(ws: seq<WindowRec>, n: nat): (t: seq<Effect>)
    requires n <= |ws|
    ensures |t| == 2 * n + 1 && t[0] == ListClients
  {
    if n == 0 then [ListClients] else ScanTrace(ws, n - 1) + WindowReads(ws[n - 1])
  }

  /** The rune-by-rune copy of a `_STICKER` value that findRunningSurf compares. */
  method WidenTag(bytes: seq<byte>) returns (tag: string)
    ensures tag == Widen(bytes)
  {
    tag := [];
    var j := 0;
    while j < |bytes|
      invariant 0 <= j <= |bytes|
      invariant tag == Widen(bytes[..j])
    {
      tag := tag + [bytes[j] as char];
      j := j + 1;
    }
    assert bytes[..j] == bytes;
  }

  /** The scan only reads: it launches nothing and writes no property. */
  lemma {:induction false} ScanTraceOnlyQueries(ws: seq<WindowRec>, n: nat)
    requires n <= |ws|
    ensures forall i :: 0 <= i < |ScanTrace(ws, n)| ==> IsQuery(ScanTrace(ws, n)[i])
  {
    if n != 0 {
      ScanTraceOnlyQueries(ws, n - 1);
    }
  }

  /**
   * findRunningSurf over a client-list reply. A failed ClientListGet is
   * returned as the error before any window is read. Otherwise the windows
   * are read in order up to and including the first match, whose id is
   * returned; no match gives no window and no error. Property-read errors
   * are ignored.
   */
  method FindRunningSurf(sticker: string, clients: Result<seq<WindowRec>, string>)
    returns (id: Option<XID>, err: Option<string>, trace: seq<Effect>)
    ensures clients.Err? ==> id.None? && err == Some(clients.error) && trace == [ListClients]
    ensures clients.Ok? ==>
      var ws := clients.value;
      var k := FirstMatch(ws, sticker);
      && err.None?
      && id == (if k < |ws| then Some(ws[k].id) else None)
      && trace == ScanTrace(ws, if k < |ws| then k + 1 else k)
  {
    trace := [ListClients];
    if clients.Err? {
      return None, Some(clients.error), trace;
    }
    var ws := clients.value;
    var i := 0;
    while i < |ws|
      invariant 0 <= i <= |ws|
      invariant i <= FirstMatch(ws, sticker)
      invariant trace == ScanTrace(ws, i)
    {
      var w := ws[i];
      trace := trace + WindowReads(w);
      var tag: string := [];
      if w.sticker.Prop? {
        tag := WidenTag(w.sticker.value);
      }
      assert tag == Widen(TagBytes(w.sticker));
      if w.surfUri.Prop? && sticker == tag {
        assert FirstMatch(ws, sticker) == i;
        return Some(w.id), None, trace;
      }
      i := i + 1;
    }
    assert FirstMatch(ws, sticker) == |ws|;
    return None, None, trace;
  }

  /** An empty client list locates nothing. */
  lemma EmptyClientList(sticker: string)
    ensures FirstMatch([], sticker) == 0
  {
  }

  /** No match is reported exactly when no window in the list matches. */
  lemma NoMatchMeansNoneMatches(ws: seq<WindowRec>, sticker: string)
    ensures FirstMatch(ws, sticker) == |ws| <==> forall w :: w in ws ==> !Matches(w, sticker)
  {
  }

  /** When exactly one window matches, it is the one located, wherever it sits in the list. */
  lemma UniqueMatchLocated(ws: seq<WindowRec>, sticker: string, k: nat)
    requires k < |ws| && Matches(ws[k], sticker)
    requires forall j :: 0 <= j < |ws| && j != k ==> !Matches(ws[j], sticker)
    ensures FirstMatch(ws, sticker) == k
  {
  }

  /**
   * A window with `_SURF_URI` and no readable `_STICKER` matches the empty
   * sticker and no other.
   */
  lemma UntaggedMatchesOnlyEmpty(w: WindowRec, sticker: string)
    requires w.surfUri.Prop? && !w.sticker.Prop?
    ensures Matches(w, sticker) <==> sticker == []
  {
  }

  /**
   * The tag startSurf writes is `[]byte(sticker)`. The scan finds a window
   * carrying it exactly when the sticker is all ASCII: for any other sticker
   * the widened UTF-8 bytes spell a different, longer string.
   */
  lemma LaunchedTagMatches(w: WindowRec, sticker: string)
    requires w.surfUri.Prop? && w.sticker == Prop(Utf8Encode(sticker))
    ensures Matches(w, sticker) <==> AllAscii(sticker)
  {
    WidenEncodeRoundTrip(sticker);
  }

  /** The sticker "é" (U+00E9) is tagged as the bytes C3 A9, which the scan reads as "Ã©". */
  lemma NonAsciiTagMismatch()
    ensures Utf8Encode("é") == [0xC3, 0xA9]
    ensures Widen(Utf8Encode("é")) == "Ã©" != "é"
  {
  }
}
