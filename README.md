# drum-ar-hud server: transport state, update, broadcast and connection handler

A Dafny model of the state-keeping core of the drum-ar-hud minimal server
(`server/server.py`). It covers these parts:

- **The transport record** (`TransportState`). It holds play state, bar, beat,
  tempo, ppq, time signature and host time. The model has it twice: as the
  value `Transport.Transport` and as the class `Transport.TransportState`,
  whose methods update the fields in place.
- **`clamp`.** This is the function `Transport.Clamped` plus the method
  `TransportState.Clamp` that implements it.
- **`state_payload`.** It stamps the time given as a parameter, clamps, and
  returns a copy (`AppState.StatePayload`, specified by `Transport.Payload`).
- **The body of `POST /api/state`** (`AppState.SetState`). It works in three
  steps:
  - The update loop copies the seven recognised keys of the body into the
    record (`AppState.ApplyUpdate`). Its reference definition is
    `Transport.Overlay`.
  - The first broadcast loop tries one send per registered client and collects
    the clients whose send raises (`AttemptSends`).
  - The second loop discards those clients from the registry
    (`AppState.DiscardAll`).
- **The WebSocket handler `ws_state`** (`AppState.HandleConnection`).
  - It registers the client and sends it one welcome payload.
  - It answers "pong" to every text message whose stripped, lower-cased data is
    "ping", up to the first `ERROR` message (`Converse`).
  - Then it deregisters the client.
- **The start-up derivation of `build_app`** (`Project.InitialTransport`,
  `Server.BuildApp`). The time signature comes from `meta.timeSig`, through
  `str.split` and `int()`. The tempo comes from `meta.bpm`, then `meta.tempo`,
  then 120.

Module `Text` holds the pieces of Python string handling that these
operations rely on:

- `str.isspace` (the full Python whitespace set);
- `str.strip`;
- ASCII `str.lower`;
- `str.split` on one character;
- base-ten `int()` on a string: an optional sign, underscores between digits,
  and the whitespace `int()` skips around the numeral, which is `str.isspace`
  without the four information separators U+001C to U+001F; numerals of
  more than 4300 digits are rejected, as CPython's default limit requires;
- `str()` of an integer, used only to state round trips.

Sends never happen in the model. Each `send_str` becomes a value in an
out-parameter. Whether a send raises is decided by an oracle the caller passes
in:

- For the broadcast, the oracle is the set of clients whose send fails.
- For the handler, it is the set of positions, among that handler's own sends,
  of the sends that fail.

`time.time()` is a parameter `now`. A client is identified by a natural number.

Two facts about the code shape the model:

- The handler has no `try`/`finally` around its sends (lines 113-124). If the
  welcome send or a "pong" send raises, the handler ends there and the client
  stays in `ws_clients` until a later broadcast fails to reach it and prunes
  it. `HandleConnection` reports this with `raised`, and in that case the
  client is still registered.
- `server.py` has no operation that switches the active project; the project
  is fixed when `build_app` runs.

## Model

| member | source | states |
|---|---|---|
| Transport.Clamped | server/server.py:40-46 | the clamped record satisfies `Normal`: bar, beat, ts_num and ts_den are each at least 1, and bpm is nonzero; a field already at least 1 is kept, and one below 1 becomes 1; a zero bpm becomes 120 and any other bpm, negative included, is kept; ppq, playing and t_host are kept |
| Transport.ClampFixesExactlyNormal | server/server.py:40-46 | clamping leaves a record unchanged if and only if the record is already normal |
| Transport.ClampIdempotent | server/server.py:40-46 | clamping twice is clamping once |
| Transport.TransportState.Clamp | server/server.py:40-46 | after the in-place clamp the object holds `Clamped` of its old contents, which is normal |
| Transport.TransportState.constructor | server/server.py:29-38 | a new record holds the given bpm, ts_num and ts_den, and the dataclass defaults elsewhere: not playing, bar 1, beat 1, ppq 0, t_host 0 |
| Transport.TransportState.SetAttr | server/server.py:91 | `setattr` of one recognised field overwrites that field and no other |
| Transport.Payload | server/server.py:55-58 | a payload is normal and carries the supplied time as t_host |
| Transport.PayloadTwice | server/server.py:55-58 | two payloads with no update in between agree on every field except t_host, which is the time of the second call |
| Transport.PayloadForgetsTime | server/server.py:56-57 | the t_host a record held before `state_payload` has no influence on the payload |
| Server.AppState.StatePayload | server/server.py:55-58 | the returned copy equals the new contents of the record, which are `Payload` of its old contents at time `now` |
| Transport.UpdateLoopIsOverlay | server/server.py:89-91 | the key-by-key loop over the seven keys, in the source's order, equals the field-by-field overlay of the body on the record |
| Transport.OverlayPointwise | server/server.py:89-91 | for every recognised key: present in the body, the field takes the body's value (a number stored as a real for bpm and ppq); absent, the field is kept; t_host is never touched |
| Transport.UpdateWithoutKnownKeys | server/server.py:89-91 | a body without any recognised key, the empty body in particular, leaves the record unchanged |
| Transport.UpdateIgnoresUnknownKeys | server/server.py:89-91 | adding keys outside the seven recognised ones to a body does not change the result of the update |
| Transport.UpdateIdempotent | server/server.py:89-91 | applying the same body twice is the same as applying it once |
| Server.UnparseableBodyChangesNothing | server/server.py:84-87 | a body that fails to parse behaves as `{}`: the update leaves every field unchanged |
| Server.AppState.ApplyUpdate | server/server.py:89-91 | after the in-place update loop the record holds the overlay of the payload on its old contents |
| Server.BroadcastStep | server/server.py:96-100 | one more send attempt, to a client not tried yet, keeps the invariant of the send loop: every tried client once, with the same message, and `dead` holds exactly the tried clients whose send failed |
| Server.AttemptSends | server/server.py:95-100 | every client of the set receives exactly one send attempt, all with the same message; `dead` is exactly the clients whose send failed |
| Server.AppState.DiscardAll | server/server.py:102-103 | after discarding the dead clients the registry is the old registry minus the dead set |
| Server.AppState.SetState | server/server.py:82-103 | the record becomes the payload of the updated record; the message is built once from that payload; every client registered at the start gets exactly one attempt with that message; afterwards the registry is the old registry minus exactly the clients whose send failed |
| Server.AppState.Register | server/server.py:113 | `ws_clients.add(ws)` puts the client in the registry |
| Server.AppState.Discard | server/server.py:124 | `ws_clients.discard(ws)` removes the client, and removing a client that is absent changes nothing |
| Server.PingWithPadding | server/server.py:121 | "ping" in any ASCII letter case, with any whitespace around it, is a ping |
| Server.PingShape | server/server.py:121 | every ping is a four-character word that lower-cases to "ping", with only whitespace before and after it |
| Server.FirstError | server/server.py:118-120 | the handler leaves its loop at the first `ERROR` message; no message before that position is an `ERROR` |
| Server.PongCount | server/server.py:118-122 | the replies to a message sequence are all "pong", and there are exactly as many as there are pings in it |
| Server.OutgoingShape | server/server.py:116-122 | without a failing send, the handler writes the welcome payload first, then one "pong" for each ping before the first `ERROR`, and nothing else |
| Server.Converse | server/server.py:116-122 | the handler's writes are the prefix, up to the first failing send, of the welcome payload followed by the replies; it reports a raise exactly when a send fails |
| Server.AppState.HandleConnection | server/server.py:113-124 | the record receives one payload at time `now`; the client gets the payload and then its pongs, up to the first failing send; without a failure the client is out of the registry at the end, and after a failure it is still in the registry |
| Server.AppState.constructor | server/server.py:50-53 | a new application state has the given project and record and an empty registry |
| Server.BuildApp | server/server.py:128-144 | the application starts with the derived initial record and an empty registry |
| Project.TimeSig | server/server.py:131-139 | a missing or non-string timeSig, or one without "/", keeps (4, 4); otherwise the numerator is `int()` of the first "/"-separated part if that parses, and the denominator is `int()` of the second only when both parse; the derivation never fails |
| Project.TimeSigRoundTrip | server/server.py:134-137 | "N/D" written out from two integers of at most 4300 digits each reads back as (N, D) |
| Project.TimeSigIgnoresTail | server/server.py:136-137 | only the first two "/"-separated parts count: "N/D/anything" reads as (N, D), for numerals of at most 4300 digits |
| Project.TimeSigKeepsNumerator | server/server.py:135-139 | when the numerator (of at most 4300 digits) parses and the denominator does not, ts_num is already N and ts_den stays 4 |
| Project.TimeSigLongNumerator | server/server.py:135-139 | a numerator of more than 4300 digits makes `int()` raise at once, and the signature stays (4, 4) |
| Project.TimeSigLongDenominator | server/server.py:135-139 | a denominator of more than 4300 digits raises after ts_num is set: "N/D" gives (N, 4) |
| Project.TimeSigInfoSeparator | server/server.py:135-139 | "\x1c3/4" keeps (4, 4): `int()` does not skip the information separator U+001C, so the numerator raises |
| Project.SeedBpm | server/server.py:141 | the tempo is the first truthy value among meta.bpm, meta.tempo and 120.0, so it is never zero |
| Project.InitialTransport | server/server.py:131-143 | the initial record has the derived tempo and signature and the dataclass defaults otherwise: not playing, bar 1, beat 1, ppq 0, t_host 0 |
| Project.InitialNormalIffSignaturePositive | server/server.py:131-143 | the initial record satisfies the clamp invariant exactly when both parts of the derived signature are at least 1 |
| Project.SeedExample | server/server.py:131-143 | a document with tempo 90 and timeSig "3/4" starts at 90 bpm, in 3/4, at bar 1, beat 1 |
| Project.SeedWithoutMeta | server/server.py:131-143 | a document without meta starts at 120 bpm in 4/4 |
| Text.StripIsInfix | server/server.py:121 | `strip()` returns an infix of the string that neither starts nor ends with whitespace, and only whitespace is cut on either side |
| Text.StripPadded | server/server.py:121 | `strip()` of a trimmed word with whitespace around it gives the word back |
| Text.LowerChars | server/server.py:121 | `lower()` maps every character on its own, ASCII capitals to small letters |
| Text.JoinSplit | server/server.py:136-137 | joining the parts of `split(sep)` with sep gives back the string |
| Text.SplitJoin | server/server.py:136-137 | splitting parts without the separator, once joined, gives back the parts |
| Text.ParseShow | server/server.py:136-137 | `int()` reads back the decimal form of any integer of at most 4300 digits, with any whitespace `int()` skips around it (`str.isspace` without U+001C to U+001F) |
| Text.ParseShowTooLong | server/server.py:136-137 | `int()` rejects the decimal form of an integer of more than 4300 digits, with or without that whitespace around it |
| Text.ParseRejectsInfoSeparator | server/server.py:136-137 | `int()` rejects every string holding one of U+001C to U+001F, wherever it stands |
| Text.ParseBlank | server/server.py:136-139 | `int()` fails on the empty string and on whitespace alone |

## Left out

- The HTTP and WebSocket transport is not modelled: aiohttp routing, `web.Application`, `json_response`, `ws.prepare`, and the transport-level heartbeat (lines 68-80, 108-111, 146-157). This is I/O plumbing.
- `load_project` (lines 61-65) and `main` are not modelled; both are file, argument and environment I/O. The document reaches `BuildApp` already parsed.
- `time.time()` is the parameter `now`.
- `send_str` is not performed. An oracle says which sends raise; the message an actual failure carries is not modelled.
- Concurrency is not modelled: each operation is one sequential step. In the program, the broadcast iterates the live `ws_clients` across `await` (lines 96-98), so a client registering or leaving during a broadcast can make it raise `RuntimeError` (set changed size during iteration); the model does not capture this.
- JSON serialisation is not modelled. `json.dumps` of a payload is the opaque value `StateMessage`, computed once per broadcast.
- The handler's message stream is a finite sequence. `WsOther` stands for every message that is neither `TEXT` nor `ERROR`; the end of the connection is the end of the sequence.
- The second `state_payload()` in the response of `POST /api/state` (line 105) is not modelled; it only re-stamps a payload that is already clamped.
- Server.AppState.SetState: requires every recognised key of the body to hold a value of its field's JSON kind: a boolean for playing, an integer for bar, beat, ts_num and ts_den, a number for bpm and ppq. Python's dynamic typing is not modelled: other values stored by `setattr`, and the `int()`/`float()` coercions in `clamp` that act on them.
- Transport.Clamped: ppq is a real, so `float(ppq) if ppq else 0.0` is the identity on it; IEEE floating point (NaN, infinities, rounding of `float(int)`) is not modelled.
- A JSON body that parses but is not an object is not modelled. In the program, a number, boolean or `null` body raises at the `k in payload` test (line 90); a list or string body holding none of the seven keys passes every test as absent, so nothing changes and the broadcast goes ahead; one that holds a key, as an element or a substring (`"rebar"`), raises at `payload[k]` (line 91).
- Project.TimeSig: `int()` accepts ASCII digits only; the Unicode decimal digits Python also accepts are not modelled. A non-string timeSig is the value `None`.
- Text.MaxStrDigits: the digit limit is CPython's default of 4300; changing it at run time (`sys.set_int_max_str_digits`, `PYTHONINTMAXSTRDIGITS`) and interpreters without the limit are not modelled.
- Server.IsPing: `lower()` folds ASCII letters only; Unicode case mapping beyond ASCII is not modelled.
- Project.SeedBpm: meta.bpm and meta.tempo are numbers or absent; `float()` of a string value and the truthiness of other JSON values are not modelled. A meta that is present but not an object is not modelled either.
