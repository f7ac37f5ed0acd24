# surfsticker, modelled in Dafny

surfsticker opens URLs in "sticky" surf browser windows. Given a sticker (a
tag, `default` unless `-sticker` says otherwise) and a URL, it validates the
sticker, looks through the window manager's client list for a surf window
whose `_STICKER` property carries that sticker, launches a new surf when
there is none (reading the new window's X id from the first line surf prints
and tagging the window), and finally hands the URL to the window through the
`_SURF_GO` property. For a `file` URL it first arms an inotify watch on the
file and waits until surf closes it, an error arrives, or five seconds pass.

The model keeps every decision the program makes and replaces everything it
asks of the outside world by values:

- the X server's answers (the client list, each window's `_SURF_URI` and
  `_STICKER` replies, the result of each property write), the results of
  starting surf and the first line it prints, url.Parse's result, inotify's
  results and which case of the final `select` fires are inputs
  (`LaunchEnv`, `DeliveryEnv`, `Env`);
- every request the program makes is recorded, in order, in a trace of
  `Effect`s (`ListClients`, `ReadProperty`, `Spawn`, `WriteProperty`,
  `OpenWatcher`, `AddWatch`, `AwaitEvent`, `CloseWatcher`);
- Go strings are the Unicode text they decode to (`string`), and the bytes
  written to a property are their UTF-8 encoding (`Text.Utf8Encode`).

Files: `wrappers.dfy` (Option, Result), `text.dfy` (UTF-8 and byte
widening), `xmodel.dfy` (window ids, property replies, the effect trace),
`sticker.dfy` (validateSticker, constructStylePath), `decimal.dfy`
(strconv.ParseUint with base 10 and 32 bits), `locator.dfy`
(findRunningSurf), `launcher.dfy` (startSurf), `delivery.dfy` (openURL),
`dispatch.dfy` (init and main).

Behaviour worth knowing, as the code has it:

- An absent or unreadable `_STICKER` compares equal to the empty sticker, and
  validateSticker accepts the empty sticker, so `-sticker=` reuses any surf
  window that was not launched by this program.
- findRunningSurf widens every byte of `_STICKER` to a rune, while startSurf
  writes the sticker's UTF-8 bytes. Only all-ASCII stickers are therefore
  found again; a sticker such as `é` passes validation but never matches, so
  every run with it launches a new window (`Locator.LaunchedTagMatches`,
  `Locator.NonAsciiTagMismatch`).
- The watch mask is IN_CLOSE, which covers a close after reading as well as
  a close after writing.
- When the `_STICKER` write fails, startSurf returns the new window id
  together with the error; main treats the error as fatal.
- Nothing reads surf's standard output after the first line.

## Model

| member | source | states |
|---|---|---|
| Text.WidenEncodeRoundTrip | main.go:112-118 | widening the UTF-8 bytes of a string rune by rune gives the string back exactly when it is all ASCII |
| Text.EncodeRune | main.go:146 | one scalar value encodes to 1 to 4 bytes, a single byte equal to the code point exactly for ASCII, and only bytes of 0x80 or more otherwise |
| Text.Utf8Encode | main.go:70 | `[]byte(s)` gives at least one and at most four bytes per rune of the string |
| Sticker.FirstRejected | main.go:56-60 | the rune loop stops at the first rune that is neither letter nor number; every rune before it is one |
| Sticker.ValidateSticker | main.go:55-62 | no error exactly when every rune is a letter or a number (so the empty sticker passes); the error message begins with the sticker |
| Sticker.ConstructStylePath | main.go:64-66 | the stylesheet path is `~/.surf/styles/`, then the sticker unchanged, then `.css` |
| Sticker.StylePathRoundTrip | main.go:64-66 | the sticker can be read back from the stylesheet path, so distinct stickers give distinct paths |
| Sticker.StylePathConfined | main.go:55-66 | for an accepted sticker the path keeps the `~/.surf/styles/` prefix and `.css` suffix, has no `/` after the prefix, and its only `.` after the prefix starts `.css` |
| Decimal.ParseUint32 | main.go:141 | the parse succeeds exactly on a non-empty all-digit string whose value is at most 2^32 - 1, returning that value; an out-of-range error means a digit prefix exceeded the maximum, a syntax error means the string is empty or has a non-digit before any overflow; a failed parse is a range error exactly when some digit prefix exceeds the maximum |
| Decimal.ParseErrorsExclusive | main.go:141 | the range and syntax error conditions never both hold, so the parse result is determined by its input |
| Decimal.FormatDecimalRoundTrip | main.go:141 | every number's decimal representation reads back as that number and, below 2^32, is accepted by the parse |
| Locator.FirstMatch | main.go:109-122 | the position returned is the first window that has `_SURF_URI` and a widened `_STICKER` equal to the sticker; every earlier window fails to match |
| Locator.Matches | main.go:118 | a window can match only when its `_SURF_URI` read succeeded and its tag has as many bytes as the sticker has runes |
| Locator.MatchesBytewise | main.go:112-118 | a window matches exactly when its `_SURF_URI` read succeeded and its tag has one byte per rune of the sticker, each byte equal to that rune's code point |
| Locator.WidenTag | main.go:112-117 | the rune slice built by appending is each `_STICKER` byte widened to a rune |
| Locator.FindRunningSurf | main.go:103-123 | a failed client-list read is returned as the error with no property read; otherwise no error, the id of the first matching window or none, and the properties of exactly the windows up to the match (all of them when none matches) are read, read errors being ignored |
| Locator.EmptyClientList | main.go:109-122 | an empty client list locates no window |
| Locator.NoMatchMeansNoneMatches | main.go:109-122 | no window is reported exactly when no window in the list matches |
| Locator.UniqueMatchLocated | main.go:109-122 | when exactly one window matches, it is the one located |
| Locator.UntaggedMatchesOnlyEmpty | main.go:112-118 | a surf window without a readable `_STICKER` matches the empty sticker and no other |
| Locator.LaunchedTagMatches | main.go:112-118 | a surf window carrying the tag startSurf writes matches the sticker exactly when the sticker is all ASCII |
| Locator.NonAsciiTagMismatch | main.go:114-118 | the sticker `é` is written as bytes C3 A9, which the scan reads as `Ã©`, not `é` |
| Launcher.SurfArgv | main.go:127-128 | surf is started with five arguments whose last is the stylesheet path the sticker can be read back from |
| Launcher.NumErrorText | main.go:141-143 | the error for a refused first line names strconv.ParseUint and quotes the line, and its last character tells `invalid syntax` from `value out of range` |
| Launcher.NumErrorTextIdentifies | main.go:141-143 | two such errors read the same only when they refuse the same line for the same reason |
| Launcher.LaunchTrace | main.go:127-147 | startSurf starts surf once when StdoutPipe succeeds and not at all otherwise, and the only property it writes is `_STICKER` |
| Launcher.LaunchError | main.go:129-147 | startSurf returns no error exactly when every step succeeds; otherwise StdoutPipe's error, then Start's, then the ParseUint error for the first line (`value out of range` exactly when a digit prefix overflows), and last the `_STICKER` write's |
| Launcher.StartSurf | main.go:125-148 | StdoutPipe and Start failures are returned; surf is started with the sticker's stylesheet; the first output line becomes the window id only if it parses as a 32-bit decimal, otherwise the ParseUint error for that line (syntax or range) with no property write; after a successful parse exactly one `_STICKER` write carries the sticker's bytes and the id is returned with that write's result; no error exactly when every step succeeds; the refused line gives `value out of range` exactly when a digit prefix overflows and `invalid syntax` otherwise; its requests are exactly `LaunchTrace` and its error exactly `LaunchError` |
| Launcher.AnnouncedId | main.go:138-145 | the first line `4194309` is accepted and names window 4194309 |
| Launcher.NoAnnouncement | main.go:138-144 | the first line `oops`, or a missing first line (read as empty), is rejected |
| Delivery.DeliveryTrace | main.go:68-101 | openURL only writes properties and operates the watcher: it starts no process and reads nothing |
| Delivery.DeliveryError | main.go:72-100 | openURL returns no error exactly when the URL parses, the write succeeds and, for a `file` URL, the watch is set up and the close event arrives; otherwise the first failing step's error, and the timeout's message names the path |
| Delivery.OpenURL | main.go:68-101 | an unparsable URL writes nothing; a non-`file` URL is written verbatim to `_SURF_GO` with no watcher; a `file` URL's path is written only after the watch on it was added, then the close event gives success, a watcher error is returned and the timeout gives an error naming the path; a watcher once created is closed exactly once, last; at most one write, always `_SURF_GO` on the given window, carrying the URL or, for a file, its path; no error exactly when the URL parses, the write succeeds and, for a file, the watch succeeds and the event arrives; its requests are exactly `DeliveryTrace` and its error exactly `DeliveryError` |
| Dispatch.TargetWindow | main.go:162-172 | there is a window to deliver to exactly when the client list was read and a window matched or the launch fully succeeded |
| Dispatch.LocateTrace | main.go:162-172 | the find-or-launch requests: the client list (always the first request), the properties of the windows up to the first match, and, only when none matches, every window's properties followed by startSurf's requests |
| Dispatch.MainTrace | main.go:162-175 | main's requests once it has a URL: the find-or-launch requests, starting with the client list, then openURL's requests on the target window, and nothing when there is none |
| Dispatch.MainTraceSpawnsOnce | main.go:162-175 | main's requests start surf exactly once when no window matches and StdoutPipe succeeds, and never otherwise |
| Dispatch.FailedStageDeliversNothing | main.go:162-175 | when findRunningSurf or startSurf fails, log.Fatalf ends the run before openURL, so no `_SURF_GO` is written |
| Dispatch.LaunchStage | main.go:167-171 | a startSurf failure becomes fatal as `startSurf: ` followed by exactly startSurf's error; otherwise the announced window is returned; surf is spawned exactly when StdoutPipe succeeds, first, and `_SURF_GO` is never written; its requests are exactly startSurf's |
| Dispatch.LocateOrLaunch | main.go:162-172 | surf is launched exactly when the locator reports no window, after every window was read; the window returned is the one located or the one surf announced, whose `_STICKER` write is the last step; a locator failure is fatal with `findRunningSurf: ` before its error, and a launch failure with `startSurf: ` followed by exactly startSurf's error; its requests are exactly the scan up to and including the first match and nothing more, or, when nothing matches, the whole scan followed by exactly startSurf's requests; the window returned is `TargetWindow` |
| Dispatch.LocateAndDeliver | main.go:161-178 | the URL is written only on the located or launched window, on a launched window only after its `_STICKER` write, and every `_SURF_GO` write carries the command-line URL (for a `file` URL its path); failures of the three stages are fatal with `findRunningSurf: `, `startSurf: ` and `openURL: ` followed by exactly that stage's error; the run ends normally exactly when the window is found or launched and delivery succeeds, and then the URL was written; its requests are exactly those of the find-or-launch step followed by openURL's on the target window, and openURL runs only when there is one; surf is started exactly once when no window matches and StdoutPipe succeeds, and never otherwise; when findRunningSurf or startSurf fails no `_SURF_GO` is written |
| Dispatch.Run | main.go:150-178 | the run ends normally exactly when the sticker is valid, X is reachable, a URL is given, the client list is read, a window is located or launched successfully, and delivery succeeds; an invalid sticker ends the run before any request; surf is launched exactly when no window matches; `_SURF_GO` is written only on the located or launched window, on a launched window only after its `_STICKER` write, and always with the first argument (for a `file` URL its path); a normal end has written it; a failed launch or delivery ends the run with `startSurf: ` or `openURL: ` followed by exactly the error startSurf or openURL returned; once a URL is given its requests are exactly those of LocateAndDeliver; surf is started exactly once when no window matches and StdoutPipe succeeds, and never otherwise; when findRunningSurf or startSurf fails no `_SURF_GO` is written |

## Left out

- The X connection itself (xgbutil.NewConn and closing it) is an input that either fails or not; ewmh.ClientListGet, xprop.GetProperty and xprop.ChangeProp are replaced by their results (a client list, property replies, write results) and the trace of requests.
- Process handling (exec.Command, StdoutPipe, Start, bufio.Scanner) is replaced by their results and the first output line; the scanner's line splitting (dropping a trailing carriage return, its 64 KiB token limit) is not modelled.
- The inotify watcher and the five-second timer are replaced by the outcome of the `select` (event, watcher error or timeout); which one fires first is an input, and time is not modelled.
- url.Parse is replaced by its result (the scheme and the decoded path, or an error).
- Sticker.ValidateSticker: unicode.IsLetter and unicode.IsNumber are modelled exactly on U+0000 to U+00FF only; every code point above U+00FF is treated as neither, so the model rejects stickers such as Cyrillic or CJK words that the program accepts.
- Command-line arguments are taken as already-decoded text; argument bytes that are not valid UTF-8 are not modelled.
- The path url.Parse returns is taken as text too: a percent-encoded path such as `file:///tmp/%FF` decodes to bytes that are not valid UTF-8, which the model cannot represent.
- Launcher.NumErrorText: the parse error text that Launcher.StartSurf returns leaves out strconv.Quote's escaping (a backslash before `"` and `\`, escape sequences for non-printable characters), so for a first line such as `a"b` the model's text differs from the program's; the texts of the other errors are inputs.
- flag parsing is left out: the sticker and the positional arguments are inputs. log.Printf of the window id is left out, and log.Fatal is modelled as the run ending with its message.
- strconv.ParseUint's checks against 64-bit overflow are left out of Decimal.ParseUint32, because with a 32-bit maximum they can never fire.
