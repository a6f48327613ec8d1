/**
 * `MjpegToSrtpStream`: validates the stream options, fills in the frame
 * rate and bitrate defaults, builds the ffmpeg command line by successive
 * appends and spawns ffmpeg with that line split on spaces. The handle of
 * the spawned process is what `new MjpegToSrtpStream(...)` evaluates to.
 *
 * Two properties of the code as written are kept: the command starts with
 * a space, so the first argument is the empty string; and the `-crf 18`
 * and `-r <fps>` pieces are appended to the variable `ffmpeg` (hoisted and
 * still undefined at that point) rather than to the command, so neither
 * reaches ffmpeg and the frame rate has no effect.
 */
module MjpegToSrtpStream {
  import opened Js
  import opened ChildProcesses

  /** The `streamOptions` object; every field may be undefined. */
  datatype StreamOptions = StreamOptions(
    sourceUrl: Option<string>,
    destinationUrl: Option<string>,
    destinationKey: Option<string>,
    width: Option<int>,
    height: Option<int>,
    fps: Option<int>,
    bitrate: Option<int>)

  /** The SRTP crypto suite named in section 6.2 of RFC 4568. */
  const SrtpCryptoSuite: string := "AES_CM_128_HMAC_SHA1_80"

  const OptionsError: string :=
    "streamOptions must be specified with a sourceUrl, destinationUrl, destinationKey, width, and height."

  /** The options object is present and its five required fields are truthy. */
  predicate Accepts(streamOptions: Option<StreamOptions>) {
    && streamOptions.Some?
    && StringTruthy(streamOptions.value.sourceUrl)
    && StringTruthy(streamOptions.value.destinationUrl)
    && StringTruthy(streamOptions.value.destinationKey)
    && NumberTruthy(streamOptions.value.width)
    && NumberTruthy(streamOptions.value.height)
  }

  /** The words of the global options. */
  function GlobalOptions(): seq<string> {
    ["-loglevel", "debug"] + ["-stats"]
  }

  /** The words of the input options: the format, real-time reading and the source. */
  function InputOptions(sourceUrl: string): seq<string> {
    ["-f", "mjpeg"] + ["-re"] + ["-i", sourceUrl]
  }

  /**
   * The words of the output options, up to the destination; `width`,
   * `height` and `bitrate` are the texts of the numbers.
   */
  function OutputOptions(destinationKey: string, width: string, height: string, bitrate: string): seq<string> {
    ["-c:v", "libx264"] + ["-threads", "0"] + ["-tune", "zerolatency"]
    + ["-vf", "scale=" + width + ":" + height]
    + ["-an"]
    + ["-b:v", bitrate + "k"] + ["-bufsize", bitrate + "k"]
    + ["-ssrc", "1", "-payload_type", "99"]
    + ["-f", "rtp"]
    + ["-srtp_out_suite", SrtpCryptoSuite]
    + ["-srtp_out_params", destinationKey]
  }

  /** The words of the ffmpeg command line, grouped as they are appended. */
  function CommandTokens(sourceUrl: string, destinationUrl: string, destinationKey: string,
                         width: string, height: string, bitrate: string): seq<string>
  {
    GlobalOptions() + InputOptions(sourceUrl) + OutputOptions(destinationKey, width, height, bitrate)
    + [destinationUrl]
  }

  /** The words for options the constructor accepts, with the bitrate default applied. */
  function OptionTokens(o: StreamOptions): seq<string>
    requires Accepts(Some(o))
  {
    CommandTokens(o.sourceUrl.value, o.destinationUrl.value, o.destinationKey.value,
                  IntToString(o.width.value), IntToString(o.height.value), IntToString(NumberOr(o.bitrate, 300)))
  }

  /** The command line `startStream` builds for options the constructor accepts. */
  function CommandLine(o: StreamOptions): string
    requires Accepts(Some(o))
  {
    Spaced(OptionTokens(o))
  }

  /** The argument vector handed to `spawn` for options the constructor accepts. */
  function SpawnArguments(o: StreamOptions): seq<string>
    requires Accepts(Some(o))
  {
    Split(CommandLine(o))
  }

  /** The two global appends write the global options. */
  lemma GlobalOptionsText(command: string)
    ensures command + " -loglevel debug" + " -stats" == command + Spaced(GlobalOptions())
  {
    SpacedPair("-loglevel", "debug");
    SpacedSingle("-stats");
    SpacedAppend(["-loglevel", "debug"], ["-stats"]);
  }

  /** The three input appends write the input options. */
  lemma InputOptionsText(command: string, sourceUrl: string)
    ensures command + " -f mjpeg" + " -re" + (" -i " + sourceUrl) == command + Spaced(InputOptions(sourceUrl))
  {
    SpacedPair("-f", "mjpeg");
    SpacedSingle("-re");
    SpacedPair("-i", sourceUrl);
    SpacedAppend(["-f", "mjpeg"], ["-re"]);
    SpacedAppend(["-f", "mjpeg"] + ["-re"], ["-i", sourceUrl]);
  }

  /** The fixed encoder pieces, each as the words it holds. */
  lemma EncoderPiecesText()
    ensures Spaced(["-c:v", "libx264"]) == " -c:v libx264"
    ensures Spaced(["-threads", "0"]) == " -threads 0"
    ensures Spaced(["-tune", "zerolatency"]) == " -tune zerolatency"
    ensures Spaced(["-an"]) == " -an"
  {
    SpacedPair("-c:v", "libx264");
    SpacedPair("-threads", "0");
    SpacedPair("-tune", "zerolatency");
    SpacedSingle("-an");
  }

  /** The fixed RTP header piece, as the words it holds. */
  lemma RtpHeaderPiece()
    ensures Spaced(["-ssrc", "1", "-payload_type", "99"]) == " -ssrc 1 -payload_type 99"
  {
    SpacedPair("-ssrc", "1");
    SpacedPair("-payload_type", "99");
    SpacedAppend(["-ssrc", "1"], ["-payload_type", "99"]);
    assert ["-ssrc", "1"] + ["-payload_type", "99"] == ["-ssrc", "1", "-payload_type", "99"];
    assert " " + "-ssrc" + " " + "1" + (" " + "-payload_type" + " " + "99") == " -ssrc 1 -payload_type 99";
  }

  /** The fixed RTP and SRTP pieces, each as the words it holds. */
  lemma RtpPiecesText()
    ensures Spaced(["-f", "rtp"]) == " -f rtp"
    ensures Spaced(["-srtp_out_suite", SrtpCryptoSuite]) == " -srtp_out_suite " + SrtpCryptoSuite
  {
    SpacedPair("-f", "rtp");
    SpacedPair("-srtp_out_suite", SrtpCryptoSuite);
  }

  /** The scaling piece, as the words it holds. */
  lemma ScalePiece(width: string, height: string)
    ensures Spaced(["-vf", "scale=" + width + ":" + height]) == " -vf scale=" + width + ":" + height
  {
    SpacedPair("-vf", "scale=" + width + ":" + height);
  }

  /** The bitrate and buffer-size pieces, each as the words it holds. */
  lemma RatePieces(bitrate: string)
    ensures Spaced(["-b:v", bitrate + "k"]) == " -b:v " + bitrate + "k"
    ensures Spaced(["-bufsize", bitrate + "k"]) == " -bufsize " + bitrate + "k"
  {
    SpacedPair("-b:v", bitrate + "k");
    SpacedPair("-bufsize", bitrate + "k");
  }

  /** The eleven output appends before the destination write the output options. */
  lemma OutputOptionsText(command: string, destinationKey: string, width: string, height: string, bitrate: string)
    ensures command + " -c:v libx264" + " -threads 0" + " -tune zerolatency"
            + (" -vf scale=" + width + ":" + height)
            + " -an"
            + (" -b:v " + bitrate + "k")
            + (" -bufsize " + bitrate + "k")
            + " -ssrc 1 -payload_type 99"
            + " -f rtp"
            + (" -srtp_out_suite " + SrtpCryptoSuite)
            + (" -srtp_out_params " + destinationKey)
         == command + Spaced(OutputOptions(destinationKey, width, height, bitrate))
  {
    var scale := "scale=" + width + ":" + height;
    var rate := bitrate + "k";
    EncoderPiecesText();
    RtpHeaderPiece();
    RtpPiecesText();
    ScalePiece(width, height);
    RatePieces(bitrate);
    SpacedPair("-srtp_out_params", destinationKey);
    var w := ["-c:v", "libx264"];
    AppendWords(command, w, " -threads 0", ["-threads", "0"]);
    w := w + ["-threads", "0"];
    AppendWords(command, w, " -tune zerolatency", ["-tune", "zerolatency"]);
    w := w + ["-tune", "zerolatency"];
    AppendWords(command, w, " -vf scale=" + width + ":" + height, ["-vf", scale]);
    w := w + ["-vf", scale];
    AppendWords(command, w, " -an", ["-an"]);
    w := w + ["-an"];
    AppendWords(command, w, " -b:v " + rate, ["-b:v", rate]);
    w := w + ["-b:v", rate];
    AppendWords(command, w, " -bufsize " + rate, ["-bufsize", rate]);
    w := w + ["-bufsize", rate];
    AppendWords(command, w, " -ssrc 1 -payload_type 99", ["-ssrc", "1", "-payload_type", "99"]);
    w := w + ["-ssrc", "1", "-payload_type", "99"];
    AppendWords(command, w, " -f rtp", ["-f", "rtp"]);
    w := w + ["-f", "rtp"];
    AppendWords(command, w, " -srtp_out_suite " + SrtpCryptoSuite, ["-srtp_out_suite", SrtpCryptoSuite]);
    w := w + ["-srtp_out_suite", SrtpCryptoSuite];
    AppendWords(command, w, " -srtp_out_params " + destinationKey, ["-srtp_out_params", destinationKey]);
    w := w + ["-srtp_out_params", destinationKey];
  }

  /** The whole command: the three option groups and then `' ' + destinationUrl`. */
  lemma CommandText(sourceUrl: string, destinationUrl: string, destinationKey: string,
                    width: string, height: string, bitrate: string)
    ensures "" + Spaced(GlobalOptions()) + Spaced(InputOptions(sourceUrl))
            + Spaced(OutputOptions(destinationKey, width, height, bitrate)) + (" " + destinationUrl)
         == Spaced(CommandTokens(sourceUrl, destinationUrl, destinationKey, width, height, bitrate))
  {
    var g := GlobalOptions();
    var i := InputOptions(sourceUrl);
    var o := OutputOptions(destinationKey, width, height, bitrate);
    SpacedSingle(destinationUrl);
    SpacedAppend(g, i);
    SpacedAppend(g + i, o);
    SpacedAppend(g + i + o, [destinationUrl]);
    assert "" + Spaced(g) == Spaced(g);
  }

  class MjpegToSrtpStream {
    var sourceUrl: string
    var destinationUrl: string
    var destinationKey: string
    var width: int
    var height: int
    var fps: int
    var bitrate: int

    /** The field assignments of the constructor, once validation has passed. */
    constructor (streamOptions: StreamOptions)
      requires Accepts(Some(streamOptions))
      ensures sourceUrl == streamOptions.sourceUrl.value != ""
      ensures destinationUrl == streamOptions.destinationUrl.value != ""
      ensures destinationKey == streamOptions.destinationKey.value != ""
      ensures width == streamOptions.width.value != 0
      ensures height == streamOptions.height.value != 0
      ensures fps == (if NumberTruthy(streamOptions.fps) then streamOptions.fps.value else 3)
      ensures bitrate == (if NumberTruthy(streamOptions.bitrate) then streamOptions.bitrate.value else 300)
    {
      sourceUrl := streamOptions.sourceUrl.value;
      destinationUrl := streamOptions.destinationUrl.value;
      destinationKey := streamOptions.destinationKey.value;
      width := streamOptions.width.value;
      height := streamOptions.height.value;
      fps := NumberOr(streamOptions.fps, 3);
      bitrate := NumberOr(streamOptions.bitrate, 300);
    }

    /**
     * `startStream`: the command is accumulated append by append; the
     * process is spawned with it split on spaces and is returned.
     */
    method StartStream() returns (process: ChildProcess)
      ensures fresh(process)
      ensures process.command == "ffmpeg" && process.signals == []
      ensures SplitsInto(Spaced(CommandTokens(sourceUrl, destinationUrl, destinationKey,
                                              IntToString(width), IntToString(height), IntToString(bitrate))),
                         process.args)
    {
      var ffmpegCommand := "";
      // the hoisted `var ffmpeg`, which is still undefined when the
      // `-crf` and `-r` pieces are appended to it
      var ffmpeg: Option<string> := None;

      // global options
      ffmpegCommand := ffmpegCommand + " -loglevel debug";
      ffmpegCommand := ffmpegCommand + " -stats";
      GlobalOptionsText("");
      ghost var afterGlobal := ffmpegCommand;

      // input options
      ffmpegCommand := ffmpegCommand + " -f mjpeg";
      ffmpegCommand := ffmpegCommand + " -re";
      ffmpegCommand := ffmpegCommand + (" -i " + sourceUrl);
      InputOptionsText(afterGlobal, sourceUrl);
      ghost var afterInput := ffmpegCommand;

      // output options
      ffmpegCommand := ffmpegCommand + " -c:v libx264";
      ffmpegCommand := ffmpegCommand + " -threads 0";
      ffmpegCommand := ffmpegCommand + " -tune zerolatency";
      ffmpeg := Some(ShowString(ffmpeg) + " -crf 18");
      ffmpeg := Some(ShowString(ffmpeg) + (" -r " + IntToString(fps)));
      ffmpegCommand := ffmpegCommand + (" -vf scale=" + IntToString(width) + ":" + IntToString(height));
      ffmpegCommand := ffmpegCommand + " -an";
      ffmpegCommand := ffmpegCommand + (" -b:v " + IntToString(bitrate) + "k");
      ffmpegCommand := ffmpegCommand + (" -bufsize " + IntToString(bitrate) + "k");
      ffmpegCommand := ffmpegCommand + " -ssrc 1 -payload_type 99";
      ffmpegCommand := ffmpegCommand + " -f rtp";
      ffmpegCommand := ffmpegCommand + (" -srtp_out_suite " + SrtpCryptoSuite);
      ffmpegCommand := ffmpegCommand + (" -srtp_out_params " + destinationKey);
      OutputOptionsText(afterInput, destinationKey, IntToString(width), IntToString(height), IntToString(bitrate));
      ffmpegCommand := ffmpegCommand + (" " + destinationUrl);
      CommandText(sourceUrl, destinationUrl, destinationKey, IntToString(width), IntToString(height), IntToString(bitrate));

      process := new ChildProcess.Spawn("ffmpeg", Split(ffmpegCommand));
      SplitsIntoSplit(ffmpegCommand, process.args);
    }
  }

  /**
   * `new MjpegToSrtpStream(streamOptions)`: throws when the options are
   * missing or incomplete; otherwise evaluates to the spawned process.
   */
  method New(streamOptions: Option<StreamOptions>) returns (r: Result<ChildProcess>)
    ensures r.Failure? <==> !Accepts(streamOptions)
    ensures r.Failure? ==> r.message == OptionsError
    ensures r.Success? ==> fresh(r.value) && r.value.command == "ffmpeg" && r.value.signals == []
    ensures r.Success? ==> SplitsInto(CommandLine(streamOptions.value), r.value.args)
  {
    if !Accepts(streamOptions) {
      return Failure(OptionsError);
    }
    var stream := new MjpegToSrtpStream(streamOptions.value);
    var process := stream.StartStream();
    return Success(process);
  }

  /** The two flags that the code means to append but never does. */
  const DroppedFlags: set<string> := {"-crf", "-r"}

  /** Words that survive splitting on spaces and are none of `banned`. */
  ghost predicate PlainWords(xs: seq<string>, banned: set<string>) {
    forall i :: 0 <= i < |xs| ==> NoSpace(xs[i]) && xs[i] !in banned
  }

  lemma PlainWordsAppend(xs: seq<string>, ys: seq<string>, banned: set<string>)
    requires PlainWords(xs, banned) && PlainWords(ys, banned)
    ensures PlainWords(xs + ys, banned)
  {
  }

  lemma GlobalOptionsWords(banned: set<string>)
    requires banned <= DroppedFlags
    ensures PlainWords(GlobalOptions(), banned)
  {
    assert PlainWords(["-loglevel", "debug"], banned);
    assert PlainWords(["-stats"], banned);
    PlainWordsAppend(["-loglevel", "debug"], ["-stats"], banned);
  }

  lemma InputOptionsWords(sourceUrl: string, banned: set<string>)
    requires banned <= DroppedFlags
    requires NoSpace(sourceUrl) && sourceUrl !in banned
    ensures PlainWords(InputOptions(sourceUrl), banned)
  {
    assert PlainWords(["-f", "mjpeg"], banned);
    assert PlainWords(["-re"], banned);
    assert PlainWords(["-i", sourceUrl], banned);
    PlainWordsAppend(["-f", "mjpeg"], ["-re"], banned);
    PlainWordsAppend(["-f", "mjpeg"] + ["-re"], ["-i", sourceUrl], banned);
  }

  lemma EncoderWordsPlain(banned: set<string>)
    requires banned <= DroppedFlags
    ensures PlainWords(["-c:v", "libx264"] + ["-threads", "0"] + ["-tune", "zerolatency"], banned)
  {
    assert PlainWords(["-c:v", "libx264"], banned);
    assert PlainWords(["-threads", "0"], banned);
    assert PlainWords(["-tune", "zerolatency"], banned);
    PlainWordsAppend(["-c:v", "libx264"], ["-threads", "0"], banned);
    PlainWordsAppend(["-c:v", "libx264"] + ["-threads", "0"], ["-tune", "zerolatency"], banned);
  }

  lemma ScaleWords(width: string, height: string, banned: set<string>)
    requires banned <= DroppedFlags
    requires NoSpace(width) && NoSpace(height)
    ensures PlainWords(["-vf", "scale=" + width + ":" + height], banned)
  {
    var scale := "scale=" + width + ":" + height;
    assert ' ' !in "scale=" && ' ' !in ":";
    assert NoSpace(scale);
    assert scale[0] == 's' && "-crf"[0] == '-' && "-r"[0] == '-';
  }

  lemma RateWords(flag: string, bitrate: string, banned: set<string>)
    requires banned <= DroppedFlags
    requires NoSpace(flag) && flag !in banned && NoSpace(bitrate)
    ensures PlainWords([flag, bitrate + "k"], banned)
  {
    var rate := bitrate + "k";
    assert rate[|rate| - 1] == 'k';
  }

  lemma RtpWordsPlain(banned: set<string>)
    requires banned <= DroppedFlags
    ensures PlainWords(["-an"], banned)
    ensures PlainWords(["-ssrc", "1", "-payload_type", "99"], banned)
  {
    assert PlainWords(["-an"], banned);
  }

  lemma SrtpWords(banned: set<string>)
    requires banned <= DroppedFlags
    ensures PlainWords(["-f", "rtp"], banned)
    ensures PlainWords(["-srtp_out_suite", SrtpCryptoSuite], banned)
  {
    assert PlainWords(["-f", "rtp"], banned);
  }

  lemma OutputOptionsWords(destinationKey: string, width: string, height: string, bitrate: string,
                           banned: set<string>)
    requires banned <= DroppedFlags
    requires NoSpace(destinationKey) && destinationKey !in banned
    requires NoSpace(width) && NoSpace(height) && NoSpace(bitrate)
    ensures PlainWords(OutputOptions(destinationKey, width, height, bitrate), banned)
  {
    var scale := "scale=" + width + ":" + height;
    var rate := bitrate + "k";
    EncoderWordsPlain(banned);
    ScaleWords(width, height, banned);
    RateWords("-b:v", bitrate, banned);
    RateWords("-bufsize", bitrate, banned);
    RtpWordsPlain(banned);
    SrtpWords(banned);
    assert PlainWords(["-srtp_out_params", destinationKey], banned);
    var w := ["-c:v", "libx264"] + ["-threads", "0"] + ["-tune", "zerolatency"];
    PlainWordsAppend(w, ["-vf", scale], banned);
    w := w + ["-vf", scale];
    PlainWordsAppend(w, ["-an"], banned);
    w := w + ["-an"];
    PlainWordsAppend(w, ["-b:v", rate], banned);
    w := w + ["-b:v", rate];
    PlainWordsAppend(w, ["-bufsize", rate], banned);
    w := w + ["-bufsize", rate];
    PlainWordsAppend(w, ["-ssrc", "1", "-payload_type", "99"], banned);
    w := w + ["-ssrc", "1", "-payload_type", "99"];
    PlainWordsAppend(w, ["-f", "rtp"], banned);
    w := w + ["-f", "rtp"];
    PlainWordsAppend(w, ["-srtp_out_suite", SrtpCryptoSuite], banned);
    w := w + ["-srtp_out_suite", SrtpCryptoSuite];
    PlainWordsAppend(w, ["-srtp_out_params", destinationKey], banned);
  }

  lemma CommandTokensWords(sourceUrl: string, destinationUrl: string, destinationKey: string,
                           width: string, height: string, bitrate: string, banned: set<string>)
    requires banned <= DroppedFlags
    requires NoSpace(sourceUrl) && NoSpace(destinationUrl) && NoSpace(destinationKey)
    requires sourceUrl !in banned && destinationUrl !in banned && destinationKey !in banned
    requires NoSpace(width) && NoSpace(height) && NoSpace(bitrate)
    ensures PlainWords(CommandTokens(sourceUrl, destinationUrl, destinationKey, width, height, bitrate), banned)
  {
    var g := GlobalOptions();
    var i := InputOptions(sourceUrl);
    var out := OutputOptions(destinationKey, width, height, bitrate);
    GlobalOptionsWords(banned);
    InputOptionsWords(sourceUrl, banned);
    OutputOptionsWords(destinationKey, width, height, bitrate, banned);
    assert PlainWords([destinationUrl], banned);
    PlainWordsAppend(g, i, banned);
    PlainWordsAppend(g + i, out, banned);
    PlainWordsAppend(g + i + out, [destinationUrl], banned);
  }

  /**
   * The command's words avoid `banned` (a subset of the dropped flags) when
   * the caller-supplied texts do, and none of them holds a space.
   */
  lemma CommandWords(o: StreamOptions, banned: set<string>)
    requires Accepts(Some(o)) && banned <= DroppedFlags
    requires NoSpace(o.sourceUrl.value) && NoSpace(o.destinationUrl.value) && NoSpace(o.destinationKey.value)
    requires o.sourceUrl.value !in banned && o.destinationUrl.value !in banned && o.destinationKey.value !in banned
    ensures PlainWords(OptionTokens(o), banned)
  {
    CommandTokensWords(o.sourceUrl.value, o.destinationUrl.value, o.destinationKey.value,
                       IntToString(o.width.value), IntToString(o.height.value), IntToString(NumberOr(o.bitrate, 300)),
                       banned);
  }

  /**
   * With a source URL, destination URL and key free of spaces, the argument
   * vector is an empty string followed by exactly the command's words.
   */
  lemma SpawnArgumentsLayout(o: StreamOptions)
    requires Accepts(Some(o))
    requires NoSpace(o.sourceUrl.value) && NoSpace(o.destinationUrl.value) && NoSpace(o.destinationKey.value)
    ensures SpawnArguments(o) == [""] + OptionTokens(o)
  {
    CommandWords(o, {});
    assert SpaceFree(OptionTokens(o));
    SplitSpaced(OptionTokens(o));
  }

  /** Whatever the options, the first argument is the empty string. */
  lemma FirstArgumentIsEmpty(o: StreamOptions)
    requires Accepts(Some(o))
    ensures SpawnArguments(o)[0] == ""
  {
    var tokens := OptionTokens(o);
    assert tokens[0] == "-loglevel";
    assert Spaced(tokens) == " " + (tokens[0] + Spaced(tokens[1..]));
    LeadingSpace(tokens[0] + Spaced(tokens[1..]));
  }

  /** A destination URL without spaces is the last argument, whatever the other options. */
  lemma LastArgumentIsDestination(o: StreamOptions)
    requires Accepts(Some(o))
    requires NoSpace(o.destinationUrl.value)
    ensures SpawnArguments(o)[|SpawnArguments(o)| - 1] == o.destinationUrl.value
  {
    var d := o.destinationUrl.value;
    var prefix := GlobalOptions() + InputOptions(o.sourceUrl.value)
                  + OutputOptions(o.destinationKey.value, IntToString(o.width.value), IntToString(o.height.value),
                                  IntToString(NumberOr(o.bitrate, 300)));
    assert OptionTokens(o) == prefix + [d];
    SpacedAppend(prefix, [d]);
    SpacedSingle(d);
    assert Spaced(prefix + [d]) == Spaced(prefix) + " " + d;
    SplitSpaceThenWord(Spaced(prefix), d);
  }

  /** The process `startStream` spawns gets the destination URL as its last argument. */
  lemma ProcessDestination(o: StreamOptions, args: seq<string>)
    requires Accepts(Some(o))
    requires NoSpace(o.destinationUrl.value)
    requires SplitsInto(CommandLine(o), args)
    ensures args[|args| - 1] == o.destinationUrl.value
  {
    LastArgumentIsDestination(o);
    SplitsIntoLast(CommandLine(o), args, o.destinationUrl.value);
  }

  /**
   * The frame rate never reaches ffmpeg: options that differ only in `fps`
   * give the same argument vector, and it holds neither `-crf` nor `-r`
   * unless a caller-supplied text is one of those words.
   */
  lemma FrameRateHasNoEffect(o: StreamOptions, fps: Option<int>)
    requires Accepts(Some(o))
    requires NoSpace(o.sourceUrl.value) && NoSpace(o.destinationUrl.value) && NoSpace(o.destinationKey.value)
    requires o.sourceUrl.value !in DroppedFlags && o.destinationUrl.value !in DroppedFlags
    requires o.destinationKey.value !in DroppedFlags
    ensures SpawnArguments(o.(fps := fps)) == SpawnArguments(o)
    ensures "-crf" !in SpawnArguments(o) && "-r" !in SpawnArguments(o)
  {
    CommandWords(o, DroppedFlags);
    SpawnArgumentsLayout(o);
    assert "-crf" in DroppedFlags && "-r" in DroppedFlags;
  }
}
