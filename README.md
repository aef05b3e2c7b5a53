# Telephony-to-transcription stream bridge, modelled in Dafny

The system relays a phone call's audio from the telephony provider's media
stream (a WebSocket carrying JSON events) to a real-time speech-transcription
service (a second WebSocket carrying binary audio frames), and prints the final
transcripts the service returns. Everything lives in `app.py`.

The model has five modules:

- `Wrappers` (wrappers.dfy): the `Option` type used for absent JSON members and `None` values.
- `Audio` (audio.dfy): the silence filter. A frame counts as audio exactly when one of its bytes is non-zero.
- `Transcripts` (transcripts.dfy): the result filter run on every service message. A message is
  reported exactly when it is a final "Results" message whose first alternative has non-empty
  text. Missing members take the source's defaults (`{}`, `[{}]`, `''`, `False`). An empty
  `alternatives` list makes the handler raise `IndexError` (`Fault`).
- `DotEnv` (dotenv.dfy): the `.env` loader. It strips each line with Python's `str.strip`
  whitespace set, skips blank lines and lines whose raw text starts with `#`, and splits the
  rest at the first `=`. Later lines overwrite earlier keys. A kept line without `=` ends loading
  with a `ValueError`, and the assignments already made stay in place. `ApiKey` is the
  `os.getenv` lookup of the credential, with its placeholder default.
- `Bridge` (bridge.dfy): the per-call handler `MediaStreamHandler` as a class with the source's
  fields. There is also a ghost log `sent` of the frames forwarded to the service. The service
  connection is a class `Link` with two flags: `connected`, for "the socket exists and is
  connected", and `closed`, for "close was requested".
  Three scenario methods use only the contracts: `ForwardsAudioOnce`, `DropsSilence` and
  `SecondStartAbandonsLink`.

Inputs the model takes as parameters instead of computing them:

- The JSON and base64 decoding results arrive as `Message` and `ServiceMessage` values.
- The configured credential is an argument.
- Whether a socket send raises is the argument `sendFails`.
- The `.env` file's lines are given. The file is `None` when opening it raises `FileNotFoundError`.
- The process environment is a map that the loader takes and returns.

Behaviours of the code that a reader might not expect, which the model keeps:

- A second `start` with a real credential replaces the held link without closing the old one
  (app.py:148). The old link stays open and is no longer referenced (`SecondStartAbandonsLink`).
- A media payload that `base64.b64decode` rejects (wrong padding, non-ASCII text) makes it raise
  outside any `try` (app.py:59). The decoder is lenient otherwise: it drops other characters
  outside the base64 alphabet, and such payloads reach `Media` as whatever bytes it returns. The same goes for a missing `event`, `start`, `media` or `payload` member
  (app.py:51-58). The exception escapes `on_message` before any field changes, so the model has
  `OnMessage` report `raised` with the state unchanged. A rejected payload is therefore not a dropped
  frame but an exception out of the handler.
- A silent inbound frame over a connected link, and a `closed` event, return before
  `message_count` is incremented (app.py:72, 82).

## Model

| member | source | states |
|---|---|---|
| Audio.HasAudio | app.py:70 | a frame is audio if and only if some byte of it is non-zero |
| Audio.SilentIffAllZero | app.py:70-72 | a frame is silent, and so dropped before the send, exactly when every byte of it is zero |
| Transcripts.FinalTranscript | app.py:116-124 | reports text `t` if and only if the message is parsed, `type` is "Results", `is_final` is present and true, the first alternative's transcript is present and equals non-empty `t`; faults if and only if a "Results" message has a present, empty `alternatives` list; otherwise reports nothing |
| Transcripts.InterimAndEmptyDiscarded | app.py:118-124 | a one-alternative "Results" message reports its text when final with non-empty text, and nothing when interim or empty |
| Transcripts.MissingMembersReportNothing | app.py:119-120 | a missing `is_final`, `channel` or first `transcript` takes its default and nothing is reported |
| DotEnv.SkipLeading | app.py:18 | the returned index lies between the start and the end, everything skipped is whitespace, and the character at it (if any) is not |
| DotEnv.SkipTrailing | app.py:18 | the returned end lies between the bounds, everything dropped after it is whitespace, and the character before it (if inside the range) is not |
| DotEnv.IsSpace | app.py:18 | holds exactly for the code points Python's `str.isspace` accepts, the characters `strip()` removes |
| DotEnv.Strip | app.py:18 | the stripped line is no longer than the line and, when non-empty, neither starts nor ends with whitespace |
| DotEnv.StripIsTrimmedInfix | app.py:18-19 | the stripped line is an infix of the line with only whitespace around it and none at either of its ends; it is empty if and only if the line is all whitespace |
| DotEnv.SplitAtFirst | app.py:19 | no split if and only if there is no `=`; otherwise key + "=" + value is the input and the key holds no `=` |
| DotEnv.SplitAtFirstUnique | app.py:19 | any `key=value` whose key has no `=` splits back into exactly that key and value, so the value may contain `=` |
| DotEnv.IsComment | app.py:18 | holds exactly when the raw line's first character is `#` (`line.startswith('#')`), before any stripping |
| DotEnv.ParseLine | app.py:18-19 | a line is skipped if and only if it is blank after stripping or starts with `#` in column 0; it lacks a separator if and only if it is kept and its stripped text has no `=`; an entry's key + "=" + value is the stripped line |
| DotEnv.LoadFrom | app.py:17-20 | a failure is reported at a line, within the remaining lines, that has no separator |
| DotEnv.Load | app.py:17-20 | loading a file starts at its first line; a failure names a line of the file that has no separator |
| DotEnv.LoadEnv | app.py:14-22 | a missing file leaves the environment unchanged; otherwise the loop's result is the line-by-line fold `Load` |
| DotEnv.FailsAtFirstNoSeparator | app.py:19 | loading fails if and only if some kept line has no `=`, and it fails at the first such line |
| DotEnv.UnassignedKept | app.py:17-20 | a key that no line assigns keeps its presence and value from the initial environment |
| DotEnv.LastAssignmentWins | app.py:20 | the value of a key is the value of the last line that assigns it |
| DotEnv.FailureKeepsEarlierLines | app.py:17-20 | on failure the environment is what loading the lines before the failing one produces |
| DotEnv.ApiKey | app.py:27 | the credential equals the placeholder exactly when the variable is unset or set to the placeholder itself |
| DotEnv.ApiKeyFromFile | app.py:14-27 | when loading succeeds, the credential is the value of the last line of the file that assigns it |
| Bridge.Link.constructor | app.py:139-146 | a newly created link has no connected socket and no close request |
| Bridge.Link.Establish | app.py:151-152 | the background receiver's handshake connects a link unless its close was already requested, and does not change the close request |
| Bridge.Link.Close | app.py:158 | after close is requested, the link is closed and not connected |
| Bridge.TrackOf | app.py:60 | the effective track is "inbound" exactly when the message carries the track "inbound"; an absent track defaults to "unknown" and is never inbound |
| Bridge.MediaStreamHandler.LinkReady | app.py:67 | holds exactly when a link is held and its socket is connected, the link part of the forwarding guard |
| Bridge.MediaStreamHandler.OnOpen | app.py:30-36 | the session starts with no media seen, count zero, no link, no configuration and nothing sent |
| Bridge.MediaStreamHandler.ConnectToDeepgram | app.py:86-148 | with the placeholder key the link is unchanged; otherwise a fresh, unconnected link replaces it and the previous link is not touched; other fields unchanged |
| Bridge.MediaStreamHandler.CloseDeepgram | app.py:154-161 | afterwards no link is held; a held link had not been closed before and is now closed; with no link nothing changes |
| Bridge.MediaStreamHandler.OnClose | app.py:163-165 | closes and drops the held link regardless of the reason; a no-op without a link |
| Bridge.MediaStreamHandler.OnMessage | app.py:38-84 | `None`, malformed and invalid messages change nothing (only invalid ones raise); any media event sets `has_seen_media` and it never reverts; `start` stores the configuration and connects; an inbound frame with audio over a connected link is appended to `sent` once unless the send raises; silent inbound frames over a connected link and `closed` leave the count unchanged, every other handled event adds one; `stop` and `closed` close and drop the link; a real-key `start` replaces the link without closing the old one; no other event touches the link |

## Left out

- The Flask route, the WebSocket server and its resource table (app.py:168-184): HTTP and server plumbing.
- `WebSocketApp`, `run_forever` and the background receiver thread (app.py:139-152): network I/O
  and concurrency. A link is an object with `connected`/`closed` flags. `Link.Establish` stands
  for the handshake the background thread performs. The `deepgram_thread` field is not modelled.
- The service URL and its query parameters (app.py:97-111) and the authorization header (app.py:141): fixed text with no logic.
- `json.loads` and `base64.b64decode` (app.py:45, 59, 116): messages arrive parsed and payloads decoded.
  A JSON response that is not an object, a `channel` that is not an object, and the truthiness
  of non-string transcripts and non-boolean `is_final` values are not modelled. Those members
  are typed as strings and booleans.
- `Config`: the `start` object is reduced to a map of strings; nested JSON values are not modelled.
- `Bridge.MediaStreamHandler.OnMessage`: an exception escaping the handler is returned as `raised`.
  What the server does with the connection afterwards is not modelled.
- `on_deepgram_error`, `on_deepgram_close` and `on_deepgram_open` (app.py:129-136): logging and no-op callbacks.
- All `print` output. The reported transcript is the `Report` verdict.
- `DotEnv.LoadEnv`: file errors other than a missing file (permission, decoding) are not modelled.
  Neither are the restrictions `os.environ` puts on what it stores: an empty key, or a NUL
  character in a name or value, makes the assignment at app.py:20 raise `ValueError`.
  Text-mode newline translation is not modelled either: lines are taken as the file iterator yields them.
