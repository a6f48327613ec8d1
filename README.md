# homebridge-camera-sensr in Dafny

A model of the core of homebridge-camera-sensr. This Homebridge plug-in exposes Sensr.net web cameras to HomeKit. When HomeKit asks for a video stream, the camera negotiates an SRTP session and starts ffmpeg. ffmpeg reads the camera's MJPEG feed and sends it as H.264 over SRTP (RFC 3711), using the AES_CM_128_HMAC_SHA1_80 suite from section 6.2 of RFC 4568.

The model covers:

- **Stream sessions** of both camera classes: `lib/SensrCamera.js` (the newer one) and `SensrCamera.js` (the older root one). Each keeps two maps, `pendingSessions` and `ongoingSessions`.
  - `prepareStream` records a session and answers the offer.
  - `handleStreamRequest` runs the start/stop protocol over the two maps. A start promotes a pending record to a running ffmpeg process. A stop sends that process `SIGKILL` and forgets it.
  - Both classes are Dafny classes. They have the two maps as fields, `modifies` clauses, and a `Valid` invariant: no process is kept under two sessions.
- **The ffmpeg command lines**, as the code builds them:
  - The newer camera resolves stream options and hands them to `MjpegToSrtpStream`. That class validates the options, applies its defaults, builds the command append by append and spawns ffmpeg with the command split on spaces.
  - The older camera resolves width, height, frame rate and bitrate itself, with the frame rate capped at 30. It builds one command string over the still-image URL.
  - Splitting on spaces is `Js.Split`. Its inverse (`Js.Join`, `Js.SplitsInto`) gives each spawned argument vector an exact description.
- **The platform** (`index.js`):
  - the constructor's Homebridge API version guard;
  - the URL clean-up `_sanitizeUrlSlash`;
  - the endpoint defaults of `_configureSensrApi`, which rewrites the `sensrApi` object in place and stores it back in the configuration;
  - the per-account token guard of `didFinishLaunching`.

Behaviour of the code as written that the model keeps:

- In `lib/MjpegToSrtpStream.js` the `-crf 18` and `-r <fps>` pieces are appended to the hoisted, still undefined variable `ffmpeg`, not to the command. Neither reaches ffmpeg, so the frame rate has no effect (`MjpegToSrtpStream.FrameRateHasNoEffect`).
- That command starts with a space, so the first argument ffmpeg receives is the empty string (`MjpegToSrtpStream.FirstArgumentIsEmpty`).
- The older camera streams from `options.still`, the newer from `options.live`.
- The older camera caps the frame rate and negotiates no audio. The newer one passes the frame rate through and echoes audio.
- A start for a record that was prepared without video throws while reading the key. This happens in both versions, before either map changes, so the pending record is not deleted.

Modules: `Js` (JavaScript values, `||`, number text, `split(' ')`), `ChildProcesses` (spawned process handles), `StreamSessions` (HomeKit negotiation records), `MjpegToSrtpStream`, `LibSensrCamera`, `RootSensrCamera`, `SensrPlatforms`.

## Model

| member | source | states |
|---|---|---|
| Js.StringOr | index.js:54 | `v \|\| fallback` on text is the value when it is defined and not empty, else the fallback; the result is non-empty exactly when the value or the fallback is, so a non-empty default never yields empty text |
| Js.NumberOr | lib/SensrCamera.js:145-148 | `v \|\| fallback` on a number is the value when it is defined and not 0, else the fallback; the result is truthy exactly when the value or the fallback is, which is why width and height with their defaults always pass validation |
| Js.IntToString | lib/MjpegToSrtpStream.js:70 | the text `+` makes of an integer is non-empty and has no space: the decimal digits, after a '-' for a negative number |
| Js.ShowNumber | SensrCamera.js:145 | the text of a possibly undefined number is "undefined" or the number's digits; never empty, never a space |
| Js.NatToStringRoundTrip | lib/MjpegToSrtpStream.js:70 | reading the decimal text of a number back gives the number |
| Js.Split | lib/MjpegToSrtpStream.js:89 | `split(' ')`: the pieces between single spaces, at least one piece and none holding a space; `SplitJoin`, `JoinSplit` and `SplitsIntoSplit` characterise it |
| Js.SplitJoin | lib/MjpegToSrtpStream.js:89 | joining space-free words with single spaces and splitting on ' ' gives the words back |
| Js.JoinSplit | lib/MjpegToSrtpStream.js:89 | joining the pieces of `split(' ')` with single spaces gives back the text |
| Js.SplitsIntoSplit | lib/MjpegToSrtpStream.js:89 | a list of at least one space-free piece that joins back to the text is exactly what `split(' ')` returns, and conversely |
| Js.SplitSpaced | lib/MjpegToSrtpStream.js:43-85 | a command built by appending `' ' + word` for space-free words splits into "" followed by the words |
| ChildProcesses.ChildProcess.Spawn | lib/MjpegToSrtpStream.js:89 | a spawned process remembers its program and argument vector and has received no signal |
| ChildProcesses.ChildProcess.Kill | lib/SensrCamera.js:161 | `kill(signal)` delivers exactly that one signal |
| StreamSessions.SrtpUrl | lib/SensrCamera.js:143 | the destination `srtp://<address>:<port>?rtcpport=<port>&localrtcpport=<port>&pkt_size=1378`, the same text in both camera versions; `SrtpUrlNoSpace` and `SrtpUrlShape` state its properties |
| StreamSessions.SrtpUrlNoSpace | lib/SensrCamera.js:143 | the SRTP destination URL has a space exactly when the target address has one |
| StreamSessions.SrtpUrlShape | lib/SensrCamera.js:143 | the destination is an `srtp://` URL that ends by asking for 1378-byte packets |
| MjpegToSrtpStream.New | lib/MjpegToSrtpStream.js:14-35 | construction throws the validation error exactly when the options are missing or one of source URL, destination URL, key, width or height is falsy; otherwise it returns the fresh ffmpeg process whose arguments are the command split on spaces |
| MjpegToSrtpStream.MjpegToSrtpStream.constructor | lib/MjpegToSrtpStream.js:24-32 | the five required fields are copied; fps defaults to 3 and bitrate to 300 when falsy |
| MjpegToSrtpStream.MjpegToSrtpStream.StartStream | lib/MjpegToSrtpStream.js:37-101 | the appends build the global, input and output options and then the destination; the dropped `-crf`/`-r` appends go to another variable; the process gets `ffmpeg` and the command split on spaces |
| MjpegToSrtpStream.CommandLine | lib/MjpegToSrtpStream.js:43-85 | the command text `startStream` builds from accepted options; `CommandText` and `StartStream` tie it to the appends, and the layout lemmas below state its split |
| MjpegToSrtpStream.GlobalOptionsText | lib/MjpegToSrtpStream.js:43-44 | the two global appends write `-loglevel debug -stats` |
| MjpegToSrtpStream.InputOptionsText | lib/MjpegToSrtpStream.js:49-53 | the input appends write `-f mjpeg -re -i <source>`, in that order |
| MjpegToSrtpStream.OutputOptionsText | lib/MjpegToSrtpStream.js:58-83 | the output appends write codec, threads, tuning, `scale=<w>:<h>`, `-an`, `-b:v`/`-bufsize` with `<bitrate>k`, the RTP and SRTP options and the key, in that order |
| MjpegToSrtpStream.CommandText | lib/MjpegToSrtpStream.js:43-85 | the whole command is the option words each preceded by one space, the destination last |
| MjpegToSrtpStream.CommandWords | lib/MjpegToSrtpStream.js:43-85 | when the source URL, destination URL and key hold no space, no word of the command holds one; and none of its words is `-crf` or `-r` unless one of those three texts is |
| MjpegToSrtpStream.SpawnArgumentsLayout | lib/MjpegToSrtpStream.js:43-89 | with space-free URLs and key, the spawned arguments are "" followed by exactly the option words |
| MjpegToSrtpStream.FirstArgumentIsEmpty | lib/MjpegToSrtpStream.js:43 | whatever the options, the first spawned argument is the empty string |
| MjpegToSrtpStream.LastArgumentIsDestination | lib/MjpegToSrtpStream.js:85-89 | a space-free destination URL is the last spawned argument, whatever the other options |
| MjpegToSrtpStream.ProcessDestination | lib/MjpegToSrtpStream.js:85-89 | the same for any argument vector the command splits into |
| MjpegToSrtpStream.FrameRateHasNoEffect | lib/MjpegToSrtpStream.js:64-66 | when the source URL, destination URL and key hold no space and are neither `-crf` nor `-r`: options that differ only in fps give the same arguments, and the arguments hold neither `-crf` nor `-r` |
| LibSensrCamera.StreamOptionsFor | lib/SensrCamera.js:141-149 | stream options come from the live URL, the record's SRTP URL and base64 key, width 1280, height 720 and bitrate 300 unless offered truthy, and the fps as offered; a record without video throws |
| LibSensrCamera.StartValidation | lib/SensrCamera.js:141-153 | the options of a start pass `MjpegToSrtpStream`'s validation exactly when the camera has a live URL and the key text is not empty |
| LibSensrCamera.UnpreparedVideoThrows | lib/SensrCamera.js:141-144 | a record prepared without video keeps no key, so building the options of its `start` throws the key-reading error |
| LibSensrCamera.StreamTarget | lib/SensrCamera.js:143-153 | the started process's last argument is the session's SRTP URL whenever the address has no space |
| LibSensrCamera.SensrCamera.constructor | lib/SensrCamera.js:17-31 | the name defaults to 'NAME NOT SPECIFIED'; both session maps start empty |
| LibSensrCamera.SensrCamera.PrepareStream | lib/SensrCamera.js:58-121 | the record is stored under `unparse(sessionID)`, replacing any earlier one, with the ongoing map unchanged; the response echoes offered video and audio ports, keys and salts with ssrc 1; the record keeps each answered stream's port, key followed by salt, and ssrc, and leaves all three undefined for a stream not offered; the address type is v4 or v6 |
| LibSensrCamera.SensrCamera.Start | lib/SensrCamera.js:133-156 | no pending record: nothing changes; an error while building or validating the options: it escapes and nothing changes; otherwise the fresh process is kept under the session, an earlier one there is dropped without a signal, and the pending record is deleted |
| LibSensrCamera.SensrCamera.Keep | lib/SensrCamera.js:153 | the new process is kept under the session id, replacing any earlier one; the pending map is unchanged; no process is kept under two ids |
| LibSensrCamera.SensrCamera.Stop | lib/SensrCamera.js:157-165 | the session's process, if any, receives `SIGKILL` exactly once; no other process is signalled; the entry is removed; the pending map is unchanged |
| LibSensrCamera.SensrCamera.HandleStreamRequest | lib/SensrCamera.js:123-169 | a start or a stop for a session behaves as above; other request types and requests without a session id change nothing; only a stop signals, and only its own process; pending and ongoing ids stay disjoint if they were |
| RootSensrCamera.Resolve | SensrCamera.js:123-139 | the defaults 1280/720/30/300 without video; otherwise width, height and bitrate as offered, even when undefined, and fps the offered value exactly when it is below 30, else 30; fps never exceeds 30 |
| RootSensrCamera.Texts | SensrCamera.js:145 | the texts of the four settings hold no space |
| RootSensrCamera.RootCommand | SensrCamera.js:145 | the one-string command of the older camera over the still URL, the setting texts, the key and the SRTP URL; `RootCommandText`, `RootArguments` and `RootTokensLayout` state its content |
| RootSensrCamera.EncoderText | SensrCamera.js:145 | the encoder part of the command writes `-threads 0 -vcodec libx264 -an -pix_fmt yuv420p -r <fps> -f rawvideo -tune zerolatency`, each word after one space |
| RootSensrCamera.PictureText | SensrCamera.js:145 | the picture part writes `-vf scale=<w>:<h> -b:v <bitrate>k -bufsize <bitrate>k`, each word after one space |
| RootSensrCamera.RtpText | SensrCamera.js:145 | the RTP part writes `-payload_type 99 -ssrc 1 -f rtp`, the SRTP suite and `-srtp_out_params <key>`, each word after one space |
| RootSensrCamera.RootCommandText | SensrCamera.js:145 | the command string is `-i` followed by its words, each preceded by one space |
| RootSensrCamera.RootArguments | SensrCamera.js:145-147 | with space-free still URL, key and destination, splitting the command gives exactly its words |
| RootSensrCamera.RootTokensLayout | SensrCamera.js:145 | the 32 words: `-i`, the still URL, fps after `-r` at position 10, the RTP and SRTP options with the key, the destination last |
| RootSensrCamera.StartArguments | SensrCamera.js:123-147 | when the still URL, the key text and the target address hold no space: the 32 spawned arguments start `-i <still>`, carry the resolved fps (at most 30) after `-r`, and end with the session's SRTP URL |
| RootSensrCamera.SensrCamera.constructor | SensrCamera.js:17-37 | the name defaults to 'NAME NOT SPECIFIED'; both session maps start empty |
| RootSensrCamera.SensrCamera.PrepareStream | SensrCamera.js:62-106 | as for the newer camera but video only: the response never carries audio, and the record's audio port, key and ssrc are all undefined |
| RootSensrCamera.SensrCamera.StartCommand | SensrCamera.js:122-145 | the command for a pending record is the line-145 text over the still URL, the resolved settings, the base64 key and the SRTP URL; a record without video throws |
| RootSensrCamera.SensrCamera.Start | SensrCamera.js:118-151 | no pending record: nothing changes; a record without video: the error escapes and nothing changes; otherwise a fresh ffmpeg process with the command split on spaces is kept under the session and the pending record is deleted |
| RootSensrCamera.SensrCamera.Stop | SensrCamera.js:152-160 | the session's process, if any, receives `SIGKILL` exactly once; the entry is removed; the pending map is unchanged |
| RootSensrCamera.SensrCamera.HandleStreamRequest | SensrCamera.js:108-164 | a start or a stop for a session behaves as above; anything else changes nothing; only a stop signals, and only its own process; disjointness of the maps is kept |
| SensrPlatforms.SanitizeUrlSlash | index.js:45-47 | the result ends with '/', extends the input by at most one character, and equals the input exactly when the input already ends with '/' (the empty text becomes "/") |
| SensrPlatforms.SanitizeIdempotent | index.js:45-47 | sanitising twice is sanitising once |
| SensrPlatforms.SanitizeIsShortest | index.js:45-47 | the result is the shortest extension of the input that ends with '/' |
| SensrPlatforms.Configure | index.js:52-56 | after clean-up all three endpoints are set; the two base URLs end with '/'; a supplied owned-cameras URL is kept verbatim |
| SensrPlatforms.DefaultEndpoints | index.js:54-56 | with nothing configured the endpoints are `https://api.sensr.net/u/v3/`, `.../cameras/` and `.../cameras/owned.json` |
| SensrPlatforms.DerivedEndpoints | index.js:54-56 | a supplied base URL is sanitised and a falsy one becomes `https://api.sensr.net/u/v3/`; a supplied cameras URL is sanitised and a missing one is the base followed by `cameras/`; a missing owned-cameras URL is the cameras URL followed by `owned.json` |
| SensrPlatforms.ConfigureIdempotent | index.js:49-60 | cleaning an already cleaned configuration changes nothing |
| SensrPlatforms.SensrPlatform.ConfigureSensrApi | index.js:49-60 | the existing `sensrApi` object, or a fresh one, gets the cleaned endpoints and is stored back; the accounts are unchanged |
| SensrPlatforms.Create | index.js:16-32 | it throws exactly when the API is missing or its version is below 2.1, before anything changes; otherwise the caller's configuration, or a fresh empty one, is cleaned |
| SensrPlatforms.SensrPlatform.ProcessSensrAccount | index.js:113-130 | no request for an account without a truthy token; otherwise one request to the owned-cameras URL with `Authorization: OAUTH <token>` |
| SensrPlatforms.SensrPlatform.DidFinishLaunching | index.js:34-43 | the accounts are processed in order; without an `accounts` entry nothing is issued |
| SensrPlatforms.AccountRequests | index.js:38-39 | the requests `didFinishLaunching` issues for the accounts in order, one per account with a truthy token; the lemmas below and `DidFinishLaunching` state its properties |
| SensrPlatforms.RequestsComeFromTokens | index.js:119-127 | every request goes to the owned-cameras URL with the token of some account that has one; there are no more requests than accounts, and exactly as many when all have tokens |
| SensrPlatforms.AccountRequestsAppend | index.js:38-39 | the requests for two runs of accounts are those of the first run followed by those of the second |
| SensrPlatforms.EachAccountContributes | index.js:119-127 | each account contributes in its place exactly one request with its own token when that token is truthy, and none otherwise |
| SensrPlatforms.TokenlessAccountIssuesNothing | index.js:119-122 | removing an account without a token changes no request |

## Left out

- The snapshot request, the Sensr.net account fetch, JSON parsing and publishing of the accessories are network I/O through the `request` library. A query is represented only by the URL and header it would send.
- The HAP wiring (camera control service, stream controllers, close-connection forwarding, accessory and UUID creation, the `didFinishLaunching` event registration) and all logging carry no state the model is about.
- ffmpeg itself, its output listeners and its exit are not modelled. `spawn` is `ChildProcesses.ChildProcess.Spawn`, and a process records the signals it receives.
- `HomebridgeHapUuid.unparse`, `Buffer.prototype.toString('base64')` and `ip.address()`/`ip.isV4Format` are foreign code. They are parameters of the camera or of `PrepareStream`, and no contract constrains them; the one assumption about the text `unparse` yields is the session-key line below.
- Js.IntToString: JavaScript writes integers of magnitude 1e21 or more in exponent form; the model always writes plain decimal digits.
- Numbers are integers. Fractional widths, heights, frame rates or bitrates, and their text, are not modelled. Values of the wrong JavaScript type (a number where text is expected, and so on) are not modelled either.
- SensrPlatforms.Create: the API version is an exact real number, not a double. A missing version compares as false and does not throw, as in the code.
- RootSensrCamera.RootCommand: the long literals of line 145 are cut into one piece per option, written one after another. The text is the same.
- LibSensrCamera.SensrCamera.HandleStreamRequest: disjointness of the two maps holds only if it held before. `PrepareStream` for an id that is already streaming can break it, as the code can.
- LibSensrCamera.SensrCamera.Start and RootSensrCamera.SensrCamera.Start are the `start` branches of `handleStreamRequest`, and the two `Stop` methods are its `stop` branches. They are written as separate methods for readability.
- Session identifiers are keys of a Dafny map. In the code the two session tables are plain JavaScript objects, where a key that names an `Object.prototype` member (`constructor`, `toString`, `__proto__`) would find an inherited value; the model assumes `unparse` never yields such a name, as UUID text never does.
- Concurrency: JavaScript runs these handlers one at a time, and nothing reacts to an abandoned session or a crashed process.
