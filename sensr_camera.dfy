/**
 * The camera class of the root `SensrCamera.js`, the older of the two
 * versions. It negotiates streams like the newer one, but without audio;
 * on a `start` it resolves the picture settings itself (capping the frame
 * rate at 30), builds the whole ffmpeg command as one string over the
 * still-image URL, and spawns ffmpeg with that string split on spaces.
 */
module RootSensrCamera {
  import opened Js
  import opened ChildProcesses
  import opened StreamSessions
  import MjpegToSrtpStream

  /** The `width`, `height`, `fps` and `bitrate` locals once resolved. */
  datatype VideoSettings = VideoSettings(width: Option<int>, height: Option<int>, fps: int, bitrate: Option<int>)

  /** The starting values of the four locals. */
  const DefaultSettings: VideoSettings := VideoSettings(Some(1280), Some(720), 30, Some(300))

  /**
   * The settings a `start` uses: the defaults without `request.video`;
   * otherwise the offered width, height and bitrate as they are (even when
   * undefined), and the offered frame rate only when it is below 30.
   */
  function Resolve(video: Option<VideoRequest>): (s: VideoSettings)
    ensures s.fps <= 30
    ensures video.None? ==> s == DefaultSettings
    ensures video.Some? ==>
      s.width == video.value.width && s.height == video.value.height && s.bitrate == video.value.maxBitRate
    ensures video.Some? ==> (s.fps < 30 <==> video.value.fps.Some? && video.value.fps.value < 30)
    ensures video.Some? && s.fps < 30 ==> s.fps == video.value.fps.value
  {
    match video
    case None => DefaultSettings
    case Some(v) =>
      VideoSettings(v.width, v.height, if v.fps.Some? && v.fps.value < 30 then v.fps.value else 30, v.maxBitRate)
  }

  /** The texts `+` makes of the four settings when it builds the command. */
  datatype SettingsText = SettingsText(fps: string, width: string, height: string, bitrate: string)

  function Texts(s: VideoSettings): (t: SettingsText)
    ensures NoSpace(t.fps) && NoSpace(t.width) && NoSpace(t.height) && NoSpace(t.bitrate)
    ensures t.fps == IntToString(s.fps)
    ensures t.width == ShowNumber(s.width) && t.height == ShowNumber(s.height) && t.bitrate == ShowNumber(s.bitrate)
  {
    SettingsText(IntToString(s.fps), ShowNumber(s.width), ShowNumber(s.height), ShowNumber(s.bitrate))
  }

  /** The encoder words: threads, codec, no audio, pixel format, frame rate, format, tuning. */
  function EncoderWords(fps: string): seq<string> {
    ["-threads", "0"] + ["-vcodec", "libx264"] + ["-an"] + ["-pix_fmt", "yuv420p"]
    + ["-r", fps] + ["-f", "rawvideo"] + ["-tune", "zerolatency"]
  }

  /** The picture words: scaling, bitrate and buffer size. */
  function PictureWords(width: string, height: string, bitrate: string): seq<string> {
    ["-vf", "scale=" + width + ":" + height] + ["-b:v", bitrate + "k"] + ["-bufsize", bitrate + "k"]
  }

  /** The RTP and SRTP words. */
  function RtpWords(key: string): seq<string> {
    ["-payload_type", "99"] + ["-ssrc", "1"] + ["-f", "rtp"]
    + ["-srtp_out_suite", MjpegToSrtpStream.SrtpCryptoSuite] + ["-srtp_out_params", key]
  }

  /** Every word after `-i`: the source, the options and the destination. */
  function OptionWords(still: string, t: SettingsText, key: string, url: string): seq<string> {
    [still] + EncoderWords(t.fps) + PictureWords(t.width, t.height, t.bitrate) + RtpWords(key) + [url]
  }

  /** The words of the command in order. */
  function RootTokens(still: string, t: SettingsText, key: string, url: string): seq<string> {
    ["-i"] + OptionWords(still, t, key, url)
  }

  /** The encoder pieces of the command text, one per option. */
  function EncoderPieces(fps: string): seq<string> {
    [" -threads 0"] + [" -vcodec libx264"] + [" -an"] + [" -pix_fmt yuv420p"]
    + [" -r " + fps] + [" -f rawvideo"] + [" -tune zerolatency"]
  }

  /** The picture pieces of the command text. */
  function PicturePieces(width: string, height: string, bitrate: string): seq<string> {
    [" -vf scale=" + width + ":" + height] + [" -b:v " + bitrate + "k"] + [" -bufsize " + bitrate + "k"]
  }

  /** The RTP and SRTP pieces of the command text. */
  function RtpPieces(key: string): seq<string> {
    [" -payload_type 99"] + [" -ssrc 1"] + [" -f rtp"]
    + [" -srtp_out_suite " + MjpegToSrtpStream.SrtpCryptoSuite] + [" -srtp_out_params " + key]
  }

  /**
   * The command string of a `start`: `'-i ' + still`, the fixed options
   * with the frame rate, scaling and bitrate filled in, the base64 key and
   * `' srtp://...'`, written one after another. The long literals of
   * `SensrCamera.js` line 145 are cut here into one piece per option; the
   * text is the same.
   */
  function RootCommand(still: string, t: SettingsText, key: string, url: string): string {
    Concat(["-i " + still] + EncoderPieces(t.fps) + PicturePieces(t.width, t.height, t.bitrate)
           + RtpPieces(key) + [" " + url])
  }

  /** The codec and thread pieces of the command, each as the words it holds. */
  lemma CodecPieces()
    ensures Spaced(["-threads", "0"]) == " -threads 0"
    ensures Spaced(["-vcodec", "libx264"]) == " -vcodec libx264"
  {
    SpacedPair("-threads", "0");
    SpacedPair("-vcodec", "libx264");
  }

  /** The audio and pixel-format pieces, each as the words it holds. */
  lemma PixelPieces()
    ensures Spaced(["-an"]) == " -an"
    ensures Spaced(["-pix_fmt", "yuv420p"]) == " -pix_fmt yuv420p"
  {
    SpacedSingle("-an");
    SpacedPair("-pix_fmt", "yuv420p");
  }

  /** The format and tuning pieces, each as the words it holds. */
  lemma FormatPieces()
    ensures Spaced(["-f", "rawvideo"]) == " -f rawvideo"
    ensures Spaced(["-tune", "zerolatency"]) == " -tune zerolatency"
  {
    SpacedPair("-f", "rawvideo");
    SpacedPair("-tune", "zerolatency");
  }

  /** The encoder pieces write the encoder words. */
  lemma EncoderText(fps: string)
    ensures Concat(EncoderPieces(fps)) == Spaced(EncoderWords(fps))
  {
    CodecPieces();
    PixelPieces();
    SpacedPair("-r", fps);
    FormatPieces();
    var p, w := [" -threads 0"], ["-threads", "0"];
    ConcatSpacedStep([], [], " -threads 0", w);
    ConcatSpacedStep(p, w, " -vcodec libx264", ["-vcodec", "libx264"]);
    p, w := p + [" -vcodec libx264"], w + ["-vcodec", "libx264"];
    ConcatSpacedStep(p, w, " -an", ["-an"]);
    p, w := p + [" -an"], w + ["-an"];
    ConcatSpacedStep(p, w, " -pix_fmt yuv420p", ["-pix_fmt", "yuv420p"]);
    p, w := p + [" -pix_fmt yuv420p"], w + ["-pix_fmt", "yuv420p"];
    ConcatSpacedStep(p, w, " -r " + fps, ["-r", fps]);
    p, w := p + [" -r " + fps], w + ["-r", fps];
    ConcatSpacedStep(p, w, " -f rawvideo", ["-f", "rawvideo"]);
    p, w := p + [" -f rawvideo"], w + ["-f", "rawvideo"];
    ConcatSpacedStep(p, w, " -tune zerolatency", ["-tune", "zerolatency"]);
  }

  /** The picture pieces write the picture words. */
  lemma PictureText(width: string, height: string, bitrate: string)
    ensures Concat(PicturePieces(width, height, bitrate)) == Spaced(PictureWords(width, height, bitrate))
  {
    var scale, rate := "scale=" + width + ":" + height, bitrate + "k";
    MjpegToSrtpStream.ScalePiece(width, height);
    MjpegToSrtpStream.RatePieces(bitrate);
    var p, w := [" -vf " + scale], ["-vf", scale];
    ConcatSpacedStep([], [], " -vf " + scale, w);
    ConcatSpacedStep(p, w, " -b:v " + rate, ["-b:v", rate]);
    p, w := p + [" -b:v " + rate], w + ["-b:v", rate];
    ConcatSpacedStep(p, w, " -bufsize " + rate, ["-bufsize", rate]);
  }

  /** The RTP header pieces, each as the words it holds. */
  lemma RtpHeaderPieces()
    ensures Spaced(["-payload_type", "99"]) == " -payload_type 99"
    ensures Spaced(["-ssrc", "1"]) == " -ssrc 1"
  {
    SpacedPair("-payload_type", "99");
    SpacedPair("-ssrc", "1");
  }

  /** The RTP pieces write the RTP words. */
  lemma RtpText(key: string)
    ensures Concat(RtpPieces(key)) == Spaced(RtpWords(key))
  {
    var suite := MjpegToSrtpStream.SrtpCryptoSuite;
    RtpHeaderPieces();
    MjpegToSrtpStream.RtpPiecesText();
    SpacedPair("-srtp_out_params", key);
    var p, w := [" -payload_type 99"], ["-payload_type", "99"];
    ConcatSpacedStep([], [], " -payload_type 99", w);
    ConcatSpacedStep(p, w, " -ssrc 1", ["-ssrc", "1"]);
    p, w := p + [" -ssrc 1"], w + ["-ssrc", "1"];
    ConcatSpacedStep(p, w, " -f rtp", ["-f", "rtp"]);
    p, w := p + [" -f rtp"], w + ["-f", "rtp"];
    ConcatSpacedStep(p, w, " -srtp_out_suite " + suite, ["-srtp_out_suite", suite]);
    p, w := p + [" -srtp_out_suite " + suite], w + ["-srtp_out_suite", suite];
    ConcatSpacedStep(p, w, " -srtp_out_params " + key, ["-srtp_out_params", key]);
  }

  /**
   * Whatever the three groups hold, when each group of pieces writes its
   * group of words, the whole command writes `-i` and then all the words.
   */
  lemma AssembleCommand(still: string, e: seq<string>, ew: seq<string>, p: seq<string>, pw: seq<string>,
                        r: seq<string>, rw: seq<string>, url: string)
    requires Concat(e) == Spaced(ew) && Concat(p) == Spaced(pw) && Concat(r) == Spaced(rw)
    ensures Concat(["-i " + still] + e + p + r + [" " + url]) == "-i" + Spaced([still] + ew + pw + rw + [url])
  {
    var source := ["-i " + still];
    SpacedSingle(still);
    SpacedSingle(url);
    assert Concat(source) == "-i" + Spaced([still]) by { assert source[1..] == []; }
    assert Concat([" " + url]) == Spaced([url]) by { assert [" " + url][1..] == []; }
    ConcatSpacedGroup("-i", source, [still], e, ew);
    ConcatSpacedGroup("-i", source + e, [still] + ew, p, pw);
    ConcatSpacedGroup("-i", source + e + p, [still] + ew + pw, r, rw);
    ConcatSpacedGroup("-i", source + e + p + r, [still] + ew + pw + rw, [" " + url], [url]);
  }

  /** The command is `-i` followed by each of its other words after a space. */
  lemma RootCommandText(still: string, t: SettingsText, key: string, url: string)
    ensures RootCommand(still, t, key, url) == "-i" + Spaced(OptionWords(still, t, key, url))
  {
    EncoderText(t.fps);
    PictureText(t.width, t.height, t.bitrate);
    RtpText(key);
    AssembleCommand(still, EncoderPieces(t.fps), EncoderWords(t.fps),
                    PicturePieces(t.width, t.height, t.bitrate), PictureWords(t.width, t.height, t.bitrate),
                    RtpPieces(key), RtpWords(key), url);
  }

  lemma EncoderWordsSpaceFree(fps: string)
    requires NoSpace(fps)
    ensures SpaceFree(EncoderWords(fps))
  {
    var w := ["-threads", "0"];
    assert SpaceFree(w);
    assert SpaceFree(["-vcodec", "libx264"]);
    SpaceFreeAppend(w, ["-vcodec", "libx264"]);
    w := w + ["-vcodec", "libx264"];
    assert SpaceFree(["-an"]);
    SpaceFreeAppend(w, ["-an"]);
    w := w + ["-an"];
    assert SpaceFree(["-pix_fmt", "yuv420p"]);
    SpaceFreeAppend(w, ["-pix_fmt", "yuv420p"]);
    w := w + ["-pix_fmt", "yuv420p"];
    assert SpaceFree(["-r", fps]);
    SpaceFreeAppend(w, ["-r", fps]);
    w := w + ["-r", fps];
    assert SpaceFree(["-f", "rawvideo"]);
    SpaceFreeAppend(w, ["-f", "rawvideo"]);
    w := w + ["-f", "rawvideo"];
    assert SpaceFree(["-tune", "zerolatency"]);
    SpaceFreeAppend(w, ["-tune", "zerolatency"]);
  }

  lemma PictureWordsSpaceFree(width: string, height: string, bitrate: string)
    requires NoSpace(width) && NoSpace(height) && NoSpace(bitrate)
    ensures SpaceFree(PictureWords(width, height, bitrate))
  {
    var scale := "scale=" + width + ":" + height;
    assert ' ' !in "scale=" && ' ' !in ":";
    assert SpaceFree(["-vf", scale]);
    assert SpaceFree(["-b:v", bitrate + "k"]);
    assert SpaceFree(["-bufsize", bitrate + "k"]);
    SpaceFreeAppend(["-vf", scale], ["-b:v", bitrate + "k"]);
    SpaceFreeAppend(["-vf", scale] + ["-b:v", bitrate + "k"], ["-bufsize", bitrate + "k"]);
  }

  lemma RtpWordsSpaceFree(key: string)
    requires NoSpace(key)
    ensures SpaceFree(RtpWords(key))
  {
    var w := ["-payload_type", "99"];
    assert SpaceFree(w);
    assert SpaceFree(["-ssrc", "1"]);
    SpaceFreeAppend(w, ["-ssrc", "1"]);
    w := w + ["-ssrc", "1"];
    assert SpaceFree(["-f", "rtp"]);
    SpaceFreeAppend(w, ["-f", "rtp"]);
    w := w + ["-f", "rtp"];
    assert NoSpace(MjpegToSrtpStream.SrtpCryptoSuite);
    assert SpaceFree(["-srtp_out_suite", MjpegToSrtpStream.SrtpCryptoSuite]);
    SpaceFreeAppend(w, ["-srtp_out_suite", MjpegToSrtpStream.SrtpCryptoSuite]);
    w := w + ["-srtp_out_suite", MjpegToSrtpStream.SrtpCryptoSuite];
    assert SpaceFree(["-srtp_out_params", key]);
    SpaceFreeAppend(w, ["-srtp_out_params", key]);
  }

  /**
   * With the still-image URL, the setting texts, the key and the
   * destination free of spaces, splitting the command gives back exactly
   * its words.
   */
  lemma RootArguments(still: string, t: SettingsText, key: string, url: string)
    requires NoSpace(still) && NoSpace(key) && NoSpace(url)
    requires NoSpace(t.fps) && NoSpace(t.width) && NoSpace(t.height) && NoSpace(t.bitrate)
    ensures Split(RootCommand(still, t, key, url)) == RootTokens(still, t, key, url)
  {
    var e := EncoderWords(t.fps);
    var p := PictureWords(t.width, t.height, t.bitrate);
    var r := RtpWords(key);
    var options := OptionWords(still, t, key, url);
    EncoderWordsSpaceFree(t.fps);
    PictureWordsSpaceFree(t.width, t.height, t.bitrate);
    RtpWordsSpaceFree(key);
    assert SpaceFree([still]) && SpaceFree([url]);
    SpaceFreeAppend([still], e);
    SpaceFreeAppend([still] + e, p);
    SpaceFreeAppend([still] + e + p, r);
    SpaceFreeAppend([still] + e + p + r, [url]);
    assert SpaceFree(["-i"]);
    SpaceFreeAppend(["-i"], options);
    RootCommandText(still, t, key, url);
    var tokens := ["-i"] + options;
    assert tokens[0] == "-i" && tokens[1..] == options;
    SplitJoin(tokens);
  }

  /**
   * The words of the command: `-i` and the still-image URL first, the
   * frame rate after `-r`, the fixed RTP and SRTP options with the key,
   * and the destination last.
   */
  lemma RootTokensLayout(still: string, t: SettingsText, key: string, url: string)
    ensures var w := RootTokens(still, t, key, url);
      && |w| == 32
      && w[0] == "-i" && w[1] == still
      && w[9] == "-r" && w[10] == t.fps
      && w[21..31] == ["-payload_type", "99", "-ssrc", "1", "-f", "rtp",
                       "-srtp_out_suite", "AES_CM_128_HMAC_SHA1_80", "-srtp_out_params", key]
      && w[31] == url
  {
  }

  /**
   * The process a `start` spawns: `-i` and the still-image URL first, the
   * resolved frame rate (never above 30) after `-r`, and the session's
   * SRTP URL last, whenever the still-image URL, the key text and the
   * address hold no space.
   */
  lemma StartArguments(still: string, video: Option<VideoRequest>, key: string, address: string, port: Option<int>)
    requires NoSpace(still) && NoSpace(key) && NoSpace(address)
    ensures var args := Split(RootCommand(still, Texts(Resolve(video)), key, SrtpUrl(address, port)));
      && |args| == 32
      && args[0] == "-i" && args[1] == still
      && args[9] == "-r" && args[10] == IntToString(Resolve(video).fps) && Resolve(video).fps <= 30
      && args[31] == SrtpUrl(address, port)
  {
    var t := Texts(Resolve(video));
    var url := SrtpUrl(address, port);
    SrtpUrlNoSpace(address, port);
    RootArguments(still, t, key, url);
    RootTokensLayout(still, t, key, url);
  }

  class SensrCamera {
    const name: string
    const options: CameraOptions
    /** `HomebridgeHapUuid.unparse`: the text form of a session id. */
    const unparse: Bytes -> string
    /** `Buffer.prototype.toString('base64')`. */
    const base64: Bytes -> string
    var pendingSessions: map<string, SessionInfo>
    var ongoingSessions: map<string, ChildProcess>

    ghost predicate Valid()
      reads this
    {
      && Injective(ongoingSessions)
      && forall k :: k in ongoingSessions ==> ongoingSessions[k].command == "ffmpeg"
    }

    /** The session-keeping part of the constructor. */
    constructor (options: CameraOptions, unparse: Bytes -> string, base64: Bytes -> string)
      ensures Valid()
      ensures name == StringOr(options.name, "NAME NOT SPECIFIED")
      ensures this.options == options && this.unparse == unparse && this.base64 == base64
      ensures pendingSessions == map[] && ongoingSessions == map[]
    {
      name := StringOr(options.name, "NAME NOT SPECIFIED");
      this.options := options;
      this.unparse := unparse;
      this.base64 := base64;
      pendingSessions := map[];
      ongoingSessions := map[];
    }

    /**
     * `prepareStream`: like the newer camera, but video only. The offered
     * audio is ignored: the response carries none and the record keeps no
     * audio fields.
     */
    method PrepareStream(request: PrepareRequest, currentAddress: string, isV4Format: string -> bool)
      returns (response: PrepareResponse)
      requires Valid()
      modifies this
      ensures Valid()
      ensures ongoingSessions == old(ongoingSessions)
      ensures unparse(request.sessionID) in pendingSessions
      ensures pendingSessions == old(pendingSessions)[unparse(request.sessionID) := pendingSessions[unparse(request.sessionID)]]
      ensures pendingSessions[unparse(request.sessionID)].address == request.targetAddress
      ensures Agrees(pendingSessions[unparse(request.sessionID)], response)
      ensures request.video.None? ==> response.video.None?
      ensures request.video.Some? ==>
        response.video == Some(MediaResponse(request.video.value.port, 1, request.video.value.srtpKey, request.video.value.srtpSalt))
      ensures response.audio.None?
      ensures var info := pendingSessions[unparse(request.sessionID)];
        info.audioPort.None? && info.audioSrtp.None? && info.audioSsrc.None?
      ensures response.address.address == currentAddress
      ensures response.address.addressType == (if isV4Format(currentAddress) then "v4" else "v6")
    {
      var sessionInfo := SessionInfo(request.targetAddress, None, None, None, None, None, None);
      var videoResponse: Option<MediaResponse> := None;

      if request.video.Some? {
        var videoInfo := request.video.value;
        videoResponse := Some(MediaResponse(videoInfo.port, 1, videoInfo.srtpKey, videoInfo.srtpSalt));
        sessionInfo := sessionInfo.(videoPort := Some(videoInfo.port));
        sessionInfo := sessionInfo.(videoSrtp := Some(videoInfo.srtpKey + videoInfo.srtpSalt));
        sessionInfo := sessionInfo.(videoSsrc := Some(1));
      }

      var addressResponse := AddressResponse(currentAddress, if isV4Format(currentAddress) then "v4" else "v6");
      response := PrepareResponse(videoResponse, None, addressResponse);
      pendingSessions := pendingSessions[unparse(request.sessionID) := sessionInfo];
    }

    /**
     * The command of a `start` for a pending record: the picture settings
     * are resolved step by step from `request.video`, then the command text
     * is built. Reading the key of a record without video throws.
     */
    method StartCommand(sessionInfo: SessionInfo, video: Option<VideoRequest>) returns (ffmpegCommand: Result<string>)
      ensures ffmpegCommand.Failure? <==> sessionInfo.videoSrtp.None?
      ensures ffmpegCommand.Failure? ==> ffmpegCommand.message == VideoKeyTypeError
      ensures ffmpegCommand.Success? ==>
        ffmpegCommand.value == RootCommand(ShowString(options.still), Texts(Resolve(video)),
                                           base64(sessionInfo.videoSrtp.value), SrtpUrl(sessionInfo.address, sessionInfo.videoPort))
    {
      var width: Option<int> := Some(1280);
      var height: Option<int> := Some(720);
      var fps := 30;
      var bitrate: Option<int> := Some(300);

      if video.Some? {
        var videoInfo := video.value;
        width := videoInfo.width;
        height := videoInfo.height;
        var expectedFPS := videoInfo.fps;
        // `undefined < fps` is false
        if expectedFPS.Some? && expectedFPS.value < fps {
          fps := expectedFPS.value;
        }
        bitrate := videoInfo.maxBitRate;
      }
      assert VideoSettings(width, height, fps, bitrate) == Resolve(video);

      var targetAddress := sessionInfo.address;
      var targetVideoPort := sessionInfo.videoPort;
      if sessionInfo.videoSrtp.None? {
        return Failure(VideoKeyTypeError);
      }
      var videoKey := sessionInfo.videoSrtp.value;
      ffmpegCommand := Success(RootCommand(ShowString(options.still), Texts(VideoSettings(width, height, fps, bitrate)),
                                           base64(videoKey), SrtpUrl(targetAddress, targetVideoPort)));
    }

    /**
     * The `start` branch of `handleStreamRequest` for the session kept
     * under `sessionIdentifier`: with a pending record, it builds the
     * command, spawns ffmpeg with its words and keeps the process under the
     * session (an earlier process under that id is dropped without a
     * signal); then it forgets the pending record. An error thrown while
     * building the command escapes before either map changes.
     */
    method Start(sessionIdentifier: string, video: Option<VideoRequest>) returns (outcome: Completion)
      requires Valid()
      modifies this
      ensures Valid()
      ensures sessionIdentifier !in old(pendingSessions) ==>
        outcome == Normal && pendingSessions == old(pendingSessions) && ongoingSessions == old(ongoingSessions)
      ensures sessionIdentifier in old(pendingSessions) ==>
        var info := old(pendingSessions)[sessionIdentifier];
        && (info.videoSrtp.None? ==>
              outcome == Thrown(VideoKeyTypeError)
              && pendingSessions == old(pendingSessions) && ongoingSessions == old(ongoingSessions))
        && (info.videoSrtp.Some? ==>
              && outcome == Normal
              && pendingSessions == old(pendingSessions) - {sessionIdentifier}
              && sessionIdentifier in ongoingSessions
              && ongoingSessions == old(ongoingSessions)[sessionIdentifier := ongoingSessions[sessionIdentifier]]
              && fresh(ongoingSessions[sessionIdentifier])
              && ongoingSessions[sessionIdentifier].signals == []
              && SplitsInto(RootCommand(ShowString(options.still), Texts(Resolve(video)),
                                        base64(info.videoSrtp.value), SrtpUrl(info.address, info.videoPort)),
                            ongoingSessions[sessionIdentifier].args))
    {
      if sessionIdentifier in pendingSessions {
        var sessionInfo := pendingSessions[sessionIdentifier];
        var ffmpegCommand := StartCommand(sessionInfo, video);
        if ffmpegCommand.Failure? {
          return Thrown(ffmpegCommand.message);
        }
        var ffmpeg := new ChildProcess.Spawn("ffmpeg", Split(ffmpegCommand.value));
        SplitsIntoSplit(ffmpegCommand.value, ffmpeg.args);
        ongoingSessions := ongoingSessions[sessionIdentifier := ffmpeg];
      }
      pendingSessions := pendingSessions - {sessionIdentifier};
      outcome := Normal;
    }

    /**
     * The `stop` branch of `handleStreamRequest`: the session's process, if
     * any, is sent `SIGKILL`, and the session is forgotten.
     */
    method Stop(sessionIdentifier: string)
      requires Valid()
      modifies this, ongoingSessions.Values
      ensures Valid()
      ensures forall p :: p in old(ongoingSessions.Values)
                && !(sessionIdentifier in old(ongoingSessions) && old(ongoingSessions[sessionIdentifier]) == p)
                ==> p.signals == old(p.signals)
      ensures pendingSessions == old(pendingSessions)
      ensures ongoingSessions == old(ongoingSessions) - {sessionIdentifier}
      ensures sessionIdentifier in old(ongoingSessions) ==>
        old(ongoingSessions)[sessionIdentifier].signals == old(ongoingSessions[sessionIdentifier].signals) + [StopSignal]
    {
      if sessionIdentifier in ongoingSessions {
        var ffmpegProcess := ongoingSessions[sessionIdentifier];
        ffmpegProcess.Kill(StopSignal);
      }
      ongoingSessions := ongoingSessions - {sessionIdentifier};
    }

    /**
     * `handleStreamRequest`: a `start` or `stop` for a session is handled
     * by the branches above; anything else, and a request without a session
     * id, changes nothing.
     */
    method HandleStreamRequest(request: StreamRequest) returns (outcome: Completion)
      requires Valid()
      modifies this, ongoingSessions.Values
      ensures Valid()
      // no process is signalled other than by a stop, and then only the stopped one
      ensures forall p :: p in old(ongoingSessions.Values) && !(IsStop(request) && old(StopVictim(request)) == Some(p))
                ==> p.signals == old(p.signals)
      // ignored requests
      ensures !IsStart(request) && !IsStop(request) ==>
        outcome == Normal && pendingSessions == old(pendingSessions) && ongoingSessions == old(ongoingSessions)
      // start
      ensures IsStart(request) && Key(request) !in old(pendingSessions) ==>
        outcome == Normal && pendingSessions == old(pendingSessions) && ongoingSessions == old(ongoingSessions)
      ensures IsStart(request) && Key(request) in old(pendingSessions) ==>
        var info := old(pendingSessions)[Key(request)];
        && (info.videoSrtp.None? ==>
              outcome == Thrown(VideoKeyTypeError)
              && pendingSessions == old(pendingSessions) && ongoingSessions == old(ongoingSessions))
        && (info.videoSrtp.Some? ==>
              && outcome == Normal
              && pendingSessions == old(pendingSessions) - {Key(request)}
              && Key(request) in ongoingSessions
              && ongoingSessions == old(ongoingSessions)[Key(request) := ongoingSessions[Key(request)]]
              && fresh(ongoingSessions[Key(request)])
              && ongoingSessions[Key(request)].signals == []
              && SplitsInto(RootCommand(ShowString(options.still), Texts(Resolve(request.video)),
                                        base64(info.videoSrtp.value), SrtpUrl(info.address, info.videoPort)),
                            ongoingSessions[Key(request)].args))
      // stop
      ensures IsStop(request) ==>
        && outcome == Normal
        && pendingSessions == old(pendingSessions)
        && ongoingSessions == old(ongoingSessions) - {Key(request)}
        && (Key(request) in old(ongoingSessions) ==>
              old(ongoingSessions)[Key(request)].signals == old(ongoingSessions[Key(request)].signals) + [StopSignal])
      // disjointness of the two maps survives a start and a stop
      ensures old(Disjoint(pendingSessions, ongoingSessions)) ==> Disjoint(pendingSessions, ongoingSessions)
    {
      outcome := Normal;
      if request.sessionID.Some? {
        var sessionIdentifier := unparse(request.sessionID.value);
        if request.requestType == Some("start") {
          outcome := Start(sessionIdentifier, request.video);
        } else if request.requestType == Some("stop") {
          Stop(sessionIdentifier);
        }
      }
    }

    /** The key the request's session is kept under. */
    function Key(request: StreamRequest): string
      requires request.sessionID.Some?
    {
      unparse(request.sessionID.value)
    }

    /** The process a stop for this request kills, if there is one. */
    function StopVictim(request: StreamRequest): Option<ChildProcess>
      reads this
    {
      if request.sessionID.Some? && Key(request) in ongoingSessions then Some(ongoingSessions[Key(request)]) else None
    }
  }
}
