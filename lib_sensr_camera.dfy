/**
 * The camera class of `lib/SensrCamera.js`: it negotiates a stream in
 * `prepareStream`, keeps the negotiated record until a `start` arrives,
 * then hands the live MJPEG URL to `MjpegToSrtpStream` and keeps the
 * returned ffmpeg process until a `stop` kills it.
 */
module LibSensrCamera {
  import opened Js
  import opened ChildProcesses
  import opened StreamSessions
  import opened MjpegToSrtpStream

  /**
   * The `streamOptions` object of a `start`, built from the live URL, the
   * pending record and `request.video || {}`; building it throws when the
   * record holds no video key.
   */
  function StreamOptionsFor(live: Option<string>, info: SessionInfo, video: VideoRequest,
                            base64: Bytes -> string): (r: Result<StreamOptions>)
    ensures r.Failure? <==> info.videoSrtp.None?
    ensures r.Failure? ==> r.message == VideoKeyTypeError
    ensures r.Success? ==>
      && r.value.sourceUrl == live
      && r.value.destinationUrl == Some(SrtpUrl(info.address, info.videoPort))
      && r.value.destinationKey == Some(base64(info.videoSrtp.value))
      && r.value.fps == video.fps
    ensures r.Success? ==>
      && r.value.width.Some? && r.value.height.Some? && r.value.bitrate.Some?
      && (NumberTruthy(video.width) ==> r.value.width == video.width)
      && (!NumberTruthy(video.width) ==> r.value.width == Some(1280))
      && (NumberTruthy(video.height) ==> r.value.height == video.height)
      && (!NumberTruthy(video.height) ==> r.value.height == Some(720))
      && (NumberTruthy(video.maxBitRate) ==> r.value.bitrate == video.maxBitRate)
      && (!NumberTruthy(video.maxBitRate) ==> r.value.bitrate == Some(300))
  {
    if info.videoSrtp.None? then Failure(VideoKeyTypeError)
    else
      Success(StreamOptions(
        sourceUrl := live,
        destinationUrl := Some(SrtpUrl(info.address, info.videoPort)),
        destinationKey := Some(base64(info.videoSrtp.value)),
        width := Some(NumberOr(video.width, 1280)),
        height := Some(NumberOr(video.height, 720)),
        fps := video.fps,
        bitrate := Some(NumberOr(video.maxBitRate, 300))))
  }

  /**
   * The options of a `start` pass `MjpegToSrtpStream`'s validation exactly
   * when the camera has a live URL and the base64 text of the key is not empty.
   */
  lemma StartValidation(live: Option<string>, info: SessionInfo, video: VideoRequest, base64: Bytes -> string)
    requires info.videoSrtp.Some?
    ensures var r := StreamOptionsFor(live, info, video, base64);
      Accepts(Some(r.value)) <==> StringTruthy(live) && base64(info.videoSrtp.value) != ""
  {
    SrtpUrlShape(info.address, info.videoPort);
  }

  /**
   * A session prepared without video keeps no key, so its `start` throws
   * while reading the key, before any stream is started.
   */
  lemma UnpreparedVideoThrows(live: Option<string>, info: SessionInfo, response: PrepareResponse,
                              video: VideoRequest, base64: Bytes -> string)
    requires Agrees(info, response) && response.video.None?
    ensures StreamOptionsFor(live, info, video, base64) == Failure(VideoKeyTypeError)
  {
  }

  /**
   * The ffmpeg process started for a session sends to the session's SRTP
   * URL: whatever argument vector the command splits into ends with that
   * URL whenever the address has no space.
   */
  lemma StreamTarget(live: Option<string>, info: SessionInfo, video: VideoRequest, base64: Bytes -> string, args: seq<string>)
    requires info.videoSrtp.Some?
    requires Accepts(Some(StreamOptionsFor(live, info, video, base64).value))
    requires NoSpace(info.address)
    requires SplitsInto(CommandLine(StreamOptionsFor(live, info, video, base64).value), args)
    ensures args[|args| - 1] == SrtpUrl(info.address, info.videoPort)
  {
    var o := StreamOptionsFor(live, info, video, base64).value;
    assert o.destinationUrl.value == SrtpUrl(info.address, info.videoPort);
    SrtpUrlNoSpace(info.address, info.videoPort);
    ProcessDestination(o, args);
  }

  class SensrCamera {
    const name: string
    const options: CameraOptions
    /** `HomebridgeHapUuid.unparse`: the text form of a session id. */
    const unparse: Bytes -> string
    /** `Buffer.prototype.toString('base64')`. */
    const base64: Bytes -> string
    var pendingSessions: map<string, SessionInfo>
    var ongoingSessions: map<string, ChildProcess>

    ghost predicate Valid()
      reads this
    {
      && Injective(ongoingSessions)
      && forall k :: k in ongoingSessions ==> ongoingSessions[k].command == "ffmpeg"
    }

    /** The session-keeping part of the constructor. */
    constructor (options: CameraOptions, unparse: Bytes -> string, base64: Bytes -> string)
      ensures Valid()
      ensures name == StringOr(options.name, "NAME NOT SPECIFIED")
      ensures this.options == options && this.unparse == unparse && this.base64 == base64
      ensures pendingSessions == map[] && ongoingSessions == map[]
    {
      name := StringOr(options.name, "NAME NOT SPECIFIED");
      this.options := options;
      this.unparse := unparse;
      this.base64 := base64;
      pendingSessions := map[];
      ongoingSessions := map[];
    }

    /**
     * `prepareStream`: records the negotiated session under the text of its
     * id, replacing any earlier record, and answers with the offered ports
     * and keys, ssrc 1, and this host's address (`ip.address()`, passed in,
     * classified by `ip.isV4Format`).
     */
    method PrepareStream(request: PrepareRequest, currentAddress: string, isV4Format: string -> bool)
      returns (response: PrepareResponse)
      requires Valid()
      modifies this
      ensures Valid()
      ensures ongoingSessions == old(ongoingSessions)
      ensures unparse(request.sessionID) in pendingSessions
      ensures pendingSessions == old(pendingSessions)[unparse(request.sessionID) := pendingSessions[unparse(request.sessionID)]]
      ensures pendingSessions[unparse(request.sessionID)].address == request.targetAddress
      ensures Agrees(pendingSessions[unparse(request.sessionID)], response)
      ensures request.video.None? ==> response.video.None?
      ensures request.video.Some? ==>
        response.video == Some(MediaResponse(request.video.value.port, 1, request.video.value.srtpKey, request.video.value.srtpSalt))
      ensures request.audio.None? ==> response.audio.None?
      ensures request.audio.Some? ==>
        response.audio == Some(MediaResponse(request.audio.value.port, 1, request.audio.value.srtpKey, request.audio.value.srtpSalt))
      ensures response.address.address == currentAddress
      ensures response.address.addressType == (if isV4Format(currentAddress) then "v4" else "v6")
    {
      var sessionInfo := SessionInfo(request.targetAddress, None, None, None, None, None, None);
      var videoResponse: Option<MediaResponse> := None;
      var audioResponse: Option<MediaResponse> := None;

      if request.video.Some? {
        var videoInfo := request.video.value;
        videoResponse := Some(MediaResponse(videoInfo.port, 1, videoInfo.srtpKey, videoInfo.srtpSalt));
        sessionInfo := sessionInfo.(videoPort := Some(videoInfo.port));
        sessionInfo := sessionInfo.(videoSrtp := Some(videoInfo.srtpKey + videoInfo.srtpSalt));
        sessionInfo := sessionInfo.(videoSsrc := Some(1));
      }

      if request.audio.Some? {
        var audioInfo := request.audio.value;
        audioResponse := Some(MediaResponse(audioInfo.port, 1, audioInfo.srtpKey, audioInfo.srtpSalt));
        sessionInfo := sessionInfo.(audioPort := Some(audioInfo.port));
        sessionInfo := sessionInfo.(audioSrtp := Some(audioInfo.srtpKey + audioInfo.srtpSalt));
        sessionInfo := sessionInfo.(audioSsrc := Some(1));
      }

      var addressResponse := AddressResponse(currentAddress, if isV4Format(currentAddress) then "v4" else "v6");
      response := PrepareResponse(videoResponse, audioResponse, addressResponse);
      pendingSessions := pendingSessions[unparse(request.sessionID) := sessionInfo];
    }

    /**
     * The `start` branch of `handleStreamRequest` for the session kept
     * under `sessionIdentifier`: with a pending record, it builds the
     * stream options, starts `MjpegToSrtpStream` and keeps its process
     * under the session (an earlier process under that id is dropped
     * without a signal); then it forgets the pending record. An error
     * thrown while starting escapes before either map changes.
     */
    method Start(sessionIdentifier: string, video: Option<VideoRequest>) returns (outcome: Completion)
      requires Valid()
      modifies this
      ensures Valid()
      ensures sessionIdentifier !in old(pendingSessions) ==>
        outcome == Normal && pendingSessions == old(pendingSessions) && ongoingSessions == old(ongoingSessions)
      ensures sessionIdentifier in old(pendingSessions) ==>
        var options := StreamOptionsFor(this.options.live, old(pendingSessions)[sessionIdentifier],
                                        VideoOrEmpty(video), base64);
        && (options.Failure? ==>
              outcome == Thrown(options.message)
              && pendingSessions == old(pendingSessions) && ongoingSessions == old(ongoingSessions))
        && (options.Success? && !Accepts(Some(options.value)) ==>
              outcome == Thrown(OptionsError)
              && pendingSessions == old(pendingSessions) && ongoingSessions == old(ongoingSessions))
        && (options.Success? && Accepts(Some(options.value)) ==>
              && outcome == Normal
              && pendingSessions == old(pendingSessions) - {sessionIdentifier}
              && sessionIdentifier in ongoingSessions
              && ongoingSessions == old(ongoingSessions)[sessionIdentifier := ongoingSessions[sessionIdentifier]]
              && fresh(ongoingSessions[sessionIdentifier])
              && ongoingSessions[sessionIdentifier].signals == []
              && SplitsInto(CommandLine(options.value), ongoingSessions[sessionIdentifier].args))
    {
      if sessionIdentifier in pendingSessions {
        var sessionInfo := pendingSessions[sessionIdentifier];
        var videoInfo := VideoOrEmpty(video);
        var streamOptions := StreamOptionsFor(options.live, sessionInfo, videoInfo, base64);
        if streamOptions.Failure? {
          return Thrown(streamOptions.message);
        }
        var stream := New(Some(streamOptions.value));
        if stream.Failure? {
          return Thrown(stream.message);
        }
        Keep(sessionIdentifier, stream.value);
      }
      pendingSessions := pendingSessions - {sessionIdentifier};
      outcome := Normal;
    }

    /**
     * Keeps a newly started process under `sessionIdentifier`, replacing
     * whatever process was kept there; no two sessions share a process.
     */
    method Keep(sessionIdentifier: string, process: ChildProcess)
      requires Valid()
      requires process.command == "ffmpeg"
      requires forall k :: k in ongoingSessions ==> ongoingSessions[k] != process
      modifies this
      ensures Valid()
      ensures pendingSessions == old(pendingSessions)
      ensures ongoingSessions == old(ongoingSessions)[sessionIdentifier := process]
    {
      ongoingSessions := ongoingSessions[sessionIdentifier := process];
    }

    /**
     * The `stop` branch of `handleStreamRequest`: the session's process, if
     * any, is sent `SIGKILL`, and the session is forgotten.
     */
    method Stop(sessionIdentifier: string)
      requires Valid()
      modifies this, ongoingSessions.Values
      ensures Valid()
      ensures forall p :: p in old(ongoingSessions.Values)
                && !(sessionIdentifier in old(ongoingSessions) && old(ongoingSessions[sessionIdentifier]) == p)
                ==> p.signals == old(p.signals)
      ensures pendingSessions == old(pendingSessions)
      ensures ongoingSessions == old(ongoingSessions) - {sessionIdentifier}
      ensures sessionIdentifier in old(ongoingSessions) ==>
        old(ongoingSessions)[sessionIdentifier].signals == old(ongoingSessions[sessionIdentifier].signals) + [StopSignal]
    {
      if sessionIdentifier in ongoingSessions {
        var ffmpegProcess := ongoingSessions[sessionIdentifier];
        ffmpegProcess.Kill(StopSignal);
      }
      ongoingSessions := ongoingSessions - {sessionIdentifier};
    }

    /**
     * `handleStreamRequest`: a `start` or `stop` for a session is handled
     * by the branches above; anything else, and a request without a session
     * id, changes nothing.
     */
    method HandleStreamRequest(request: StreamRequest) returns (outcome: Completion)
      requires Valid()
      modifies this, ongoingSessions.Values
      ensures Valid()
      // no process is signalled other than by a stop, and then only the stopped one
      ensures forall p :: p in old(ongoingSessions.Values) && !(IsStop(request) && old(StopVictim(request)) == Some(p))
                ==> p.signals == old(p.signals)
      // ignored requests
      ensures !IsStart(request) && !IsStop(request) ==>
        outcome == Normal && pendingSessions == old(pendingSessions) && ongoingSessions == old(ongoingSessions)
      // start
      ensures IsStart(request) && Key(request) !in old(pendingSessions) ==>
        outcome == Normal && pendingSessions == old(pendingSessions) && ongoingSessions == old(ongoingSessions)
      ensures IsStart(request) && Key(request) in old(pendingSessions) ==>
        var options := StreamOptionsFor(this.options.live, old(pendingSessions)[Key(request)], VideoOrEmpty(request.video), base64);
        && (options.Failure? ==>
              outcome == Thrown(options.message)
              && pendingSessions == old(pendingSessions) && ongoingSessions == old(ongoingSessions))
        && (options.Success? && !Accepts(Some(options.value)) ==>
              outcome == Thrown(OptionsError)
              && pendingSessions == old(pendingSessions) && ongoingSessions == old(ongoingSessions))
        && (options.Success? && Accepts(Some(options.value)) ==>
              && outcome == Normal
              && pendingSessions == old(pendingSessions) - {Key(request)}
              && Key(request) in ongoingSessions
              && ongoingSessions == old(ongoingSessions)[Key(request) := ongoingSessions[Key(request)]]
              && fresh(ongoingSessions[Key(request)])
              && ongoingSessions[Key(request)].signals == []
              && SplitsInto(CommandLine(options.value), ongoingSessions[Key(request)].args))
      // stop
      ensures IsStop(request) ==>
        && outcome == Normal
        && pendingSessions == old(pendingSessions)
        && ongoingSessions == old(ongoingSessions) - {Key(request)}
        && (Key(request) in old(ongoingSessions) ==>
              old(ongoingSessions)[Key(request)].signals == old(ongoingSessions[Key(request)].signals) + [StopSignal])
      // disjointness of the two maps survives a start and a stop
      ensures old(Disjoint(pendingSessions, ongoingSessions)) ==> Disjoint(pendingSessions, ongoingSessions)
    {
      outcome := Normal;
      if request.sessionID.Some? {
        var sessionIdentifier := unparse(request.sessionID.value);
        if request.requestType == Some("start") {
          outcome := Start(sessionIdentifier, request.video);
        } else if request.requestType == Some("stop") {
          Stop(sessionIdentifier);
        }
      }
    }

    /** The key the request's session is kept under. */
    function Key(request: StreamRequest): string
      requires request.sessionID.Some?
    {
      unparse(request.sessionID.value)
    }

    /** The process a stop for this request kills, if there is one. */
    function StopVictim(request: StreamRequest): Option<ChildProcess>
      reads this
    {
      if request.sessionID.Some? && Key(request) in ongoingSessions then Some(ongoingSessions[Key(request)]) else None
    }
  }
}
