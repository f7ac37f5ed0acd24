/**
 * startSurf: launches surf with the sticker's stylesheet, takes the window
 * id surf announces on the first line of its standard output, and tags that
 * window with the sticker.
 */
module Launcher {
  import opened Wrappers
  import opened Text
  import opened XModel
  import opened Sticker
  import opened Decimal

  /**
   * What the outside world answers while surf is launched: the results of
   * StdoutPipe and Start, the first line surf prints ("" when it prints
   * none), and the result of the `_STICKER` write.
   */
  datatype LaunchEnv = LaunchEnv(
    pipeErr: Option<string>,
    startErr: Option<string>,
    firstLine: string,
    tagWriteErr: Option<string>)

  /** The command line: a new window (-w), in the background (-b), with the sticker's stylesheet (-C). */
  function SurfArgv(sticker: string): (argv: seq<string>)
    ensures |argv| == 5 && argv[0] == "surf"
    ensures StickerOfStylePath(argv[4]) == Some(sticker)
  {
    StylePathRoundTrip(sticker);
    ["surf", "-w", "-b", "-C", ConstructStylePath(sticker)]
  }

  /** Every step of startSurf succeeds: surf starts, announces a 32-bit id, and the tag is written. */
  predicate LaunchSucceeds(env: LaunchEnv) {
    env.pipeErr.None? && env.startErr.None? && IsUint32(env.firstLine) && env.tagWriteErr.None?
  }

  /**
   * The requests startSurf makes: none when StdoutPipe fails; otherwise surf
   * is started, and the new window is tagged once its id has been read.
   */
  function LaunchTrace(sticker: string, env: LaunchEnv): (t: seq<Effect>)
    ensures SpawnCount(t) == (if env.pipeErr.None? then 1 else 0)
    ensures forall i :: 0 <= i < |t| && t[i].WriteProperty? ==> t[i].name == StickerProp
  {
    if env.pipeErr.Some? then []
    else if env.startErr.Some? || !IsUint32(env.firstLine) then [Spawn(SurfArgv(sticker))]
    else
      var t := [Spawn(SurfArgv(sticker)), WriteProperty(DecimalValue(env.firstLine), StickerProp, Utf8Encode(sticker))];
      SpawnCountAppend([Spawn(SurfArgv(sticker))], [t[1]]);
      assert t == [Spawn(SurfArgv(sticker))] + [t[1]];
      t
  }

  /**
   * The error startSurf returns: StdoutPipe's, then Start's, then the
   * ParseUint error for the first line (a range error exactly when a digit
   * prefix overflows), and last the result of the `_STICKER` write.
   */
  ghost function LaunchError(env: LaunchEnv): (e: Option<string>)
    ensures e.None? <==> LaunchSucceeds(env)
  {
    if env.pipeErr.Some? then env.pipeErr
    else if env.startErr.Some? then env.startErr
    else if !IsUint32(env.firstLine) then
      Some(NumErrorText(env.firstLine, if Overflows(env.firstLine) then ErrRange else ErrSyntax))
    else env.tagWriteErr
  }

  const ParsingPrefix: string := "strconv.ParseUint: parsing \""

  /**
   * The text of a strconv.NumError for ParseUint (without strconv.Quote's
   * escaping): it names the function, quotes the rejected line and ends
   * with the kind of failure.
   */
  function NumErrorText(s: string, e: NumError): (t: string)
    ensures HasPrefix(t, ParsingPrefix + s)
    ensures e == ErrSyntax ==> t[|t| - 1] == 'x'
    ensures e == ErrRange ==> t[|t| - 1] == 'e'
  {
    ParsingPrefix + s + "\": " + (if e == ErrSyntax then "invalid syntax" else "value out of range")
  }

  /** Two parse errors read the same only when they refuse the same line for the same reason. */
  lemma NumErrorTextIdentifies(s1: string, e1: NumError, s2: string, e2: NumError)
    requires NumErrorText(s1, e1) == NumErrorText(s2, e2)
    ensures s1 == s2 && e1 == e2
  {
    var t := NumErrorText(s1, e1);
    assert e1 == e2 by {
      assert t[|t| - 1] == NumErrorText(s2, e2)[|t| - 1];
    }
    var n := |ParsingPrefix|;
    assert |s1| == |s2|;
    assert t[n..n + |s1|] == s1 && t[n..n + |s2|] == s2;
  }

  /**
   * startSurf. The window id is the first output line read as a 32-bit
   * decimal; the `_STICKER` property, holding the sticker's bytes, is written
   * only once that parse has succeeded, and the id is returned together with
   * the result of that write.
   */
  method StartSurf(sticker: string, env: LaunchEnv) returns (id: Option<XID>, err: Option<string>, trace: seq<Effect>)
    ensures trace == LaunchTrace(sticker, env)
    ensures err == LaunchError(env)
    ensures err.None? <==> LaunchSucceeds(env)
    ensures env.pipeErr.Some? ==> id.None? && err == env.pipeErr && trace == []
    ensures env.pipeErr.None? ==> |trace| >= 1 && trace[0] == Spawn(SurfArgv(sticker))
    ensures env.pipeErr.None? && env.startErr.Some? ==> id.None? && err == env.startErr && |trace| == 1
    ensures env.pipeErr.None? && env.startErr.None? && !IsUint32(env.firstLine) ==>
      && id.None? && |trace| == 1
      && err == Some(NumErrorText(env.firstLine, if Overflows(env.firstLine) then ErrRange else ErrSyntax))
    ensures env.pipeErr.None? && env.startErr.None? && IsUint32(env.firstLine) ==>
      && id == Some(DecimalValue(env.firstLine))
      && err == env.tagWriteErr
      && trace == [Spawn(SurfArgv(sticker)), WriteProperty(id.value, StickerProp, Utf8Encode(sticker))]
  {
    var argv := SurfArgv(sticker);
    if env.pipeErr.Some? {
      return None, env.pipeErr, [];
    }
    trace := [Spawn(argv)];
    if env.startErr.Some? {
      return None, env.startErr, trace;
    }
    var xidStr := env.firstLine;
    var parsed := ParseUint32(xidStr);
    if parsed.Err? {
      return None, Some(NumErrorText(xidStr, parsed.error)), trace;
    }
    var xprid := parsed.value;
    trace := trace + [WriteProperty(xprid, StickerProp, Utf8Encode(sticker))];
    return Some(xprid), env.tagWriteErr, trace;
  }

  /** The announcement "4194309" names window 4194309. */
  lemma AnnouncedId()
    ensures IsUint32("4194309") && DecimalValue("4194309") == 4194309
  {
    assert DecimalValue("4") == 4 by { assert "4"[..0] == ""; }
    assert DecimalValue("41") == 41 by { assert "41"[..1] == "4"; }
    assert DecimalValue("419") == 419 by { assert "419"[..2] == "41"; }
    assert DecimalValue("4194") == 4194 by { assert "4194"[..3] == "419"; }
    assert DecimalValue("41943") == 41943 by { assert "41943"[..4] == "4194"; }
    assert DecimalValue("419430") == 419430 by { assert "419430"[..5] == "41943"; }
    assert "4194309"[..6] == "419430";
  }

  /** A line that is not a number, or an absent line, announces no window. */
  lemma NoAnnouncement()
    ensures !IsUint32("oops") && !IsUint32("")
  {
  }
}
