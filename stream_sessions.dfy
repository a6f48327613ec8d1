/**
 * The HomeKit stream-negotiation records that both camera classes handle:
 * the `prepareStream` request and response, the session record kept
 * between `prepareStream` and a `start`, the `start`/`stop` request, and
 * the SRTP destination URL that both versions hand to ffmpeg.
 */
module StreamSessions {
  import opened Js
  import opened ChildProcesses

  /** A Node `Buffer`. */
  type Bytes = seq<bv8>

  /** The camera's configuration object as the camera reads it. */
  datatype CameraOptions = CameraOptions(name: Option<string>, still: Option<string>, live: Option<string>)

  /** `request.video` or `request.audio` of `prepareStream`: where and how to send. */
  datatype MediaOffer = MediaOffer(port: int, srtpKey: Bytes, srtpSalt: Bytes)

  datatype PrepareRequest = PrepareRequest(
    sessionID: Bytes,
    targetAddress: string,
    video: Option<MediaOffer>,
    audio: Option<MediaOffer>)

  /** `response.video` or `response.audio`: the echoed port and key material, with ssrc. */
  datatype MediaResponse = MediaResponse(port: int, ssrc: int, srtpKey: Bytes, srtpSalt: Bytes)

  datatype AddressResponse = AddressResponse(address: string, addressType: string)

  datatype PrepareResponse = PrepareResponse(
    video: Option<MediaResponse>,
    audio: Option<MediaResponse>,
    address: AddressResponse)

  /** The `sessionInfo` object kept in `pendingSessions`; absent fields are `None`. */
  datatype SessionInfo = SessionInfo(
    address: string,
    videoPort: Option<int>,
    videoSrtp: Option<Bytes>,
    videoSsrc: Option<int>,
    audioPort: Option<int>,
    audioSrtp: Option<Bytes>,
    audioSsrc: Option<int>)

  /** `request.video` of a `start` request; every field may be undefined. */
  datatype VideoRequest = VideoRequest(width: Option<int>, height: Option<int>, fps: Option<int>, maxBitRate: Option<int>)

  /** The destination is an SRTP URL that asks for 1378-byte packets. */
  lemma SrtpUrlShape(address: string, port: Option<int>)
    ensures var url := SrtpUrl(address, port);
      && |url| >= 7 + |"&pkt_size=1378"|
      && url[..7] == "srtp://"
      && url[|url| - |"&pkt_size=1378"|..] == "&pkt_size=1378"
  {
    var p := ShowNumber(port);
    var head := "srtp://" + address + ":" + p + "?rtcpport=" + p + "&localrtcpport=" + p;
    assert SrtpUrl(address, port) == head + "&pkt_size=1378";
    assert head[..7] == "srtp://";
  }

  /** `request.video || {}`. */
  const NoVideoRequest: VideoRequest := VideoRequest(None, None, None, None)

  datatype StreamRequest = StreamRequest(sessionID: Option<Bytes>, requestType: Option<string>, video: Option<VideoRequest>)

  /** The request is a `start` for some session. */
  predicate IsStart(request: StreamRequest) {
    request.sessionID.Some? && request.requestType == Some("start")
  }

  /** The request is a `stop` for some session. */
  predicate IsStop(request: StreamRequest) {
    request.sessionID.Some? && request.requestType == Some("stop")
  }

  /** The error raised by `sessionInfo.video_srtp.toString(...)` when no video was prepared. */
  const VideoKeyTypeError: string := "Cannot read property 'toString' of undefined"

  /** The signal a `stop` sends to the stream's process. */
  const StopSignal: string := "SIGKILL"

  /**
   * `'srtp://' + address + ':' + port + '?rtcpport=' + port
   *  + '&localrtcpport=' + port + '&pkt_size=1378'`.
   */
  function SrtpUrl(address: string, port: Option<int>): string
  {
    var p := ShowNumber(port);
    "srtp://" + address + ":" + p + "?rtcpport=" + p + "&localrtcpport=" + p + "&pkt_size=1378"
  }

  /** The destination URL holds a space exactly when the address does. */
  lemma SrtpUrlNoSpace(address: string, port: Option<int>)
    ensures NoSpace(SrtpUrl(address, port)) <==> NoSpace(address)
  {
    var p := ShowNumber(port);
    assert NoSpace("srtp://") && NoSpace(":") && NoSpace("?rtcpport=");
    assert NoSpace("&localrtcpport=") && NoSpace("&pkt_size=1378");
    var r := "srtp://";
    NoSpaceAppend(r, address);
    r := r + address;
    NoSpaceAppend(r, ":");
    r := r + ":";
    NoSpaceAppend(r, p);
    r := r + p;
    NoSpaceAppend(r, "?rtcpport=");
    r := r + "?rtcpport=";
    NoSpaceAppend(r, p);
    r := r + p;
    NoSpaceAppend(r, "&localrtcpport=");
    r := r + "&localrtcpport=";
    NoSpaceAppend(r, p);
    r := r + p;
    NoSpaceAppend(r, "&pkt_size=1378");
  }

  /** `request.video || {}`. */
  function VideoOrEmpty(video: Option<VideoRequest>): VideoRequest
  {
    if video.Some? then video.value else NoVideoRequest
  }

  /** Every stream process is stored under one session identifier only. */
  ghost predicate Injective(sessions: map<string, ChildProcess>) {
    forall a, b :: a in sessions && b in sessions && sessions[a] == sessions[b] ==> a == b
  }

  /** No session identifier is both pending and ongoing. */
  predicate Disjoint<P, O>(pending: map<string, P>, ongoing: map<string, O>) {
    forall k :: k in pending ==> k !in ongoing
  }

  /**
   * The stored record and the response describe the same video and audio
   * streams: an answered stream's port, key and salt, and ssrc are kept, and
   * a stream that is not answered leaves all three fields undefined.
   */
  predicate Agrees(info: SessionInfo, response: PrepareResponse) {
    && (response.video.None? ==> info.videoPort.None? && info.videoSrtp.None? && info.videoSsrc.None?)
    && (response.video.Some? ==>
          && info.videoPort == Some(response.video.value.port)
          && info.videoSrtp == Some(response.video.value.srtpKey + response.video.value.srtpSalt)
          && info.videoSsrc == Some(response.video.value.ssrc))
    && (response.audio.None? ==> info.audioPort.None? && info.audioSrtp.None? && info.audioSsrc.None?)
    && (response.audio.Some? ==>
          && info.audioPort == Some(response.audio.value.port)
          && info.audioSrtp == Some(response.audio.value.srtpKey + response.audio.value.srtpSalt)
          && info.audioSsrc == Some(response.audio.value.ssrc))
  }
}
