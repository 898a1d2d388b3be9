/**
 * The agent tool `supertonic_text_to_speech`: it dispatches on a mode, checks
 * its arguments before anything is sent, routes synthesized audio to playback,
 * a file or the reply, and turns every exception into an error result.
 */
module Tool {
  import opened Wrappers
  import opened Text
  import opened Io
  import opened Audio
  import opened Client

  const BaseUrl := "http://localhost:8765"
  const Timeout := 30
  const DefaultVoice := "M1"
  const DefaultQuality := 5
  const DefaultSpeed: real := 1.05
  const DefaultFormat := "wav"
  const OutputDir := "output/supertonic_tts"

  /** `_normalize_voice_style`, which agrees with the command-line client's normalizer on every input. */
  function NormalizeVoice(voice: Option<string>): (r: Option<string>)
    ensures r == NormalizeVoiceStyle(voice)
  {
    match voice
    case None => None
    case Some(v) => if !EndsWith(v, ".json") then Some(v + ".json") else Some(v)
  }

  /** The tool's arguments; `mode` is checked by the tool itself, so any string may arrive. */
  datatype ToolArgs = ToolArgs(
    mode: string,
    text: Option<string>,
    texts: Option<seq<string>>,
    voiceStyle: Option<string>,
    voiceStyles: Option<seq<string>>,
    quality: Option<int>,
    speed: Option<real>,
    savePath: Option<string>,
    saveDir: Option<string>,
    playback: bool,
    serverUrl: string,
    requestTimeout: int)

  /** The dictionaries the tool returns. */
  datatype ToolResult =
    | HealthReport(reply: Reply)                              // the server's JSON, as is
    | Played(playback: Playback)                              // its message and next action: PlayedMessage, NextAction
    | Saved(message: string, filePath: string)
    | Inline(audioBase64: string)
    | BatchSaved(message: string, filePaths: seq<string>)
    | BatchInline(audioBase64List: seq<string>)
    | Error(caught: Caught)                                   // `{"status": "error", "message": ErrorMessage(caught)}`

  /** The `except` clause that caught an exception, with what its message is made of. */
  datatype Caught =
    | ConnectionFailed(baseUrl: string)   // requests.exceptions.ConnectionError
    | RequestFailed(e: Exception)         // any other requests.exceptions.RequestException
    | InvalidValue(e: Exception)          // ValueError
    | Unexpected(e: Exception)            // Exception

  /**
   * The `except` clauses, tried in order: a connection failure, any other
   * request failure (a reply that is not JSON included, although it is also a
   * ValueError), a ValueError, and anything else.
   */
  function Catch(e: Exception, baseUrl: string): (r: Caught)
    ensures r.ConnectionFailed? <==> e.ConnectionError?
    ensures r.RequestFailed? <==> IsRequestException(e) && !e.ConnectionError?
    ensures r.InvalidValue? <==> IsValueError(e) && !IsRequestException(e)
    ensures r.Unexpected? <==> !IsValueError(e) && !IsRequestException(e)
    ensures r.ConnectionFailed? ==> r.baseUrl == baseUrl
    ensures !r.ConnectionFailed? ==> r.e == e
  {
    if e.ConnectionError? then ConnectionFailed(baseUrl)
    else if IsRequestException(e) then RequestFailed(e)
    else if IsValueError(e) then InvalidValue(e)
    else Unexpected(e)
  }

  /** The "message" of an error result. */
  function ErrorMessage(caught: Caught): string {
    match caught
    case ConnectionFailed(baseUrl) => "Connection failed. Could not connect to the Supertonic server at " + baseUrl + "."
    case RequestFailed(e) => "An API request failed: " + Message(e)
    case InvalidValue(e) => Message(e)
    case Unexpected(e) => "An unexpected error occurred: " + Message(e)
  }

  /** The JSON body of synthesize mode: the voice is always sent; quality and speed default only when left out. */
  function ToolPayload(text: string, voiceStyle: Option<string>, quality: Option<int>, speed: Option<real>)
    : (r: SynthRequest)
    ensures r.text == text
    ensures r.voiceStyle.Some? && EndsWith(r.voiceStyle.value, ".json")
    ensures IsSet(voiceStyle) ==> r.voiceStyle == NormalizeVoiceStyle(voiceStyle)
    ensures !IsSet(voiceStyle) ==> r.voiceStyle == Some("M1.json")
    ensures r.totalStep == if quality.Some? then quality.value else DefaultQuality
    ensures r.speed == if speed.Some? then speed.value else DefaultSpeed
  {
    var voice := NormalizeVoice(Some(OrElse(voiceStyle, DefaultVoice)));
    assert !EndsWith(DefaultVoice, ".json") && DefaultVoice + ".json" == "M1.json";
    SynthRequest(text, if quality.Some? then quality.value else DefaultQuality,
                 if speed.Some? then speed.value else DefaultSpeed, voice)
  }

  /** Unlike the client, which leaves out an empty voice, the tool always sends one, falling back to M1. */
  lemma ToolAlwaysSendsVoice(config: Settings.Config, text: string, quality: int, speed: real)
    ensures SynthesizePayload(config, text, Some(""), Some(quality), Some(speed)).voiceStyle.None?
    ensures ToolPayload(text, Some(""), Some(quality), Some(speed)).voiceStyle == Some("M1.json")
  {
  }

  /** `voice_styles or [voice_style or DEFAULT_VOICE] * len(texts)` */
  function FinalVoices(texts: seq<string>, voiceStyles: Option<seq<string>>, voiceStyle: Option<string>)
    : (r: seq<string>)
    ensures voiceStyles.Some? && voiceStyles.value != [] ==> r == voiceStyles.value
    ensures voiceStyles.None? || voiceStyles.value == [] ==>
              |r| == |texts| && forall i :: 0 <= i < |r| ==> r[i] == OrElse(voiceStyle, DefaultVoice)
  {
    if voiceStyles.Some? && voiceStyles.value != [] then voiceStyles.value
    else seq(|texts|, _ => OrElse(voiceStyle, DefaultVoice))
  }

  /**
   * The `requests` list of batch mode, item `i` from `texts[i]` and `voices[i]`,
   * in order: the request synthesize mode would send, except that the voice is
   * normalized as given, without falling back to M1.
   */
  function ToolBatchRequests(texts: seq<string>, voices: seq<string>, quality: Option<int>, speed: Option<real>)
    : (r: seq<SynthRequest>)
    requires |texts| == |voices|
    ensures |r| == |texts|
    ensures forall i :: 0 <= i < |r| ==>
              r[i] == ToolPayload(texts[i], Some(voices[i]), quality, speed).(voiceStyle := NormalizeVoiceStyle(Some(voices[i])))
  {
    seq(|texts|, i requires 0 <= i < |texts| =>
      SynthRequest(texts[i], if quality.Some? then quality.value else DefaultQuality,
                   if speed.Some? then speed.value else DefaultSpeed, NormalizeVoice(Some(voices[i]))))
  }

  /** A batch item with a non-empty voice is exactly the request synthesize mode sends for its text and voice. */
  lemma BatchItemMatchesSynthesize(texts: seq<string>, voices: seq<string>, quality: Option<int>, speed: Option<real>,
                                   i: nat)
    requires |texts| == |voices| && i < |texts| && voices[i] != ""
    ensures ToolBatchRequests(texts, voices, quality, speed)[i] == ToolPayload(texts[i], Some(voices[i]), quality, speed)
  {
  }

  /** `Path(save_dir) / f"output_{i+1}.{DEFAULT_FORMAT}"`: the same names as the command-line client. */
  function ToolOutputPath(dir: string, i: nat): (r: string)
    ensures r == OutputPath(dir, i)
  {
    var stem := "output_" + NatToString(i + 1);
    assert stem + ("." + DefaultFormat) == "output_" + NatToString(i + 1) + ".wav";
    JoinPath(dir, stem + ("." + DefaultFormat))
  }

  // ---------------------------------------------------------------------------
  // `_convert_audio_format`
  // ---------------------------------------------------------------------------

  /** The message and the files after `_convert_audio_format(wav, target)`; pydub is always importable here. */
  function ToolConvertEffect(files: map<string, Bytes>, readOnly: set<string>, codec: Codec, wav: Bytes, target: string)
    : (r: (Result<string, Exception>, map<string, Bytes>))
    ensures r.0.Failure? ==> r.1 == files
    ensures forall p :: p != target ==> (p in r.1 <==> p in files) && (p in files ==> r.1[p] == files[p])
  {
    var extension := Extension(target);
    if extension == ".wav" then
      var (outcome, written) := WriteEffect(files, readOnly, target, wav);
      (if outcome.Fail? then Failure(outcome.error) else Success("Saved WAV audio to " + target), written)
    else
      var format := FormatName(extension);
      var (outcome, written) := ExportEffect(files, readOnly, codec, wav, format, target);
      (if outcome.Fail? then Failure(outcome.error) else Success("Saved " + Upper(format) + " audio to " + target),
       written)
  }

  /**
   * A `.wav` target is written with the bytes unchanged and reported as WAV;
   * any other target is reported with its format name upper-cased.
   */
  lemma ToolConvertReports(files: map<string, Bytes>, readOnly: set<string>, codec: Codec, wav: Bytes, target: string)
    requires target !in readOnly
    ensures IsWav(target) ==>
              ToolConvertEffect(files, readOnly, codec, wav, target)
              == (Success("Saved WAV audio to " + target), files[target := wav])
    ensures !IsWav(target) && ToolConvertEffect(files, readOnly, codec, wav, target).0.Success? ==>
              ToolConvertEffect(files, readOnly, codec, wav, target).0.value
              == "Saved " + Upper(FormatName(Extension(target))) + " audio to " + target
  {
  }

  /** Saving changes no file but the target. */
  lemma ConvertChangesOnlyTarget(files: map<string, Bytes>, readOnly: set<string>, codec: Codec, wav: Bytes,
                                 target: string)
    ensures ToolConvertEffect(files, readOnly, codec, wav, target).1 - {target} == files - {target}
  {
    var after := ToolConvertEffect(files, readOnly, codec, wav, target).1;
    SameBesides(files, after, target);
  }

  /** Two maps that agree on every key but `target` are equal once `target` is removed. */
  lemma SameBesides(before: map<string, Bytes>, after: map<string, Bytes>, target: string)
    requires forall p :: p != target ==> (p in after <==> p in before) && (p in before ==> after[p] == before[p])
    ensures after - {target} == before - {target}
  {
  }

  /** A successful save to a `.wav` target leaves exactly the given audio there. */
  lemma ToolConvertWritesWav(files: map<string, Bytes>, readOnly: set<string>, codec: Codec, wav: Bytes, target: string)
    requires IsWav(target)
    ensures var r := ToolConvertEffect(files, readOnly, codec, wav, target);
            r.0.Success? ==> target in r.1 && r.1[target] == wav
  {
  }

  /** `_convert_audio_format`; the temporary WAV file is unlinked in `finally`. */
  method ToolConvertAudioFormat(fs: FileSystem, codec: Codec, wav: Bytes, target: string)
    returns (r: Result<string, Exception>)
    modifies fs
    ensures (r, fs.files) == ToolConvertEffect(old(fs.files), fs.readOnly, codec, wav, target)
  {
    var extension := Extension(target);
    if extension == ".wav" {
      var outcome := fs.WriteBytes(target, wav);
      r := if outcome.Fail? then Failure(outcome.error) else Success("Saved WAV audio to " + target);
    } else {
      var format := FormatName(extension);
      var outcome := ExportThroughTemp(fs, codec, wav, format, target);
      r := if outcome.Fail? then Failure(outcome.error) else Success("Saved " + Upper(format) + " audio to " + target);
    }
  }


  // ---------------------------------------------------------------------------
  // Synthesize mode
  // ---------------------------------------------------------------------------

  /** What `_play_audio` reports: playback of the named file started, or the text of the exception raised. */
  datatype Playback = Started(fileName: string) | PlaybackFailed(reason: string)

  /** `_play_audio`: `play` is the audio device, giving the text of its exception when playback cannot start. */
  function PlayAudio(play: string -> Option<string>, path: string): (r: Playback)
    ensures r.Started? <==> play(path).None?
    ensures r.Started? ==> r.fileName == BaseName(path)
  {
    match play(path)
    case None => Started(BaseName(path))
    case Some(reason) => PlaybackFailed(reason)
  }

  /** The string `_play_audio` returns. */
  function PlaybackText(playback: Playback): string {
    match playback
    case Started(name) => "Playback of audio message started and sent to the user: " + name + "."
    case PlaybackFailed(reason) => "Playback error: " + reason
  }

  /** The "message" of a playback result. */
  function PlayedMessage(playback: Playback): string {
    "Synthesis successful. " + PlaybackText(playback)
  }

  /** The "next_action" of a playback result. */
  const NextAction := "The audio message has been sent to the user. Await the user's next input."

  /**
   * The playback branch: the audio is converted into the new temporary file
   * `temp`, played, and the file is unlinked in `finally`.
   */
  function PlaybackEffect(files: map<string, Bytes>, readOnly: set<string>, codec: Codec,
                          play: string -> Option<string>, temp: string, audio: Bytes)
    : (r: (Result<ToolResult, Exception>, map<string, Bytes>))
  {
    var (converted, written) := ToolConvertEffect(files[temp := []], readOnly, codec, audio, temp);
    (if converted.Failure? then Failure(converted.error)
     else Success(Played(PlayAudio(play, temp))),
     written - {temp})
  }

  /** Playback leaves the files exactly as it found them, whether it succeeds or raises. */
  lemma PlaybackLeavesNoFile(files: map<string, Bytes>, readOnly: set<string>, codec: Codec,
                             play: string -> Option<string>, temp: string, audio: Bytes)
    requires temp !in files
    ensures PlaybackEffect(files, readOnly, codec, play, temp, audio).1 == files
  {
    ConvertChangesOnlyTarget(files[temp := []], readOnly, codec, audio, temp);
    assert files[temp := []] - {temp} == files;
  }

  /**
   * Into a writable `.wav` temporary file the conversion cannot fail, so the
   * agent is always told of the playback, or of the device's error.
   */
  lemma PlaybackReportsPlayback(files: map<string, Bytes>, readOnly: set<string>, codec: Codec,
                                play: string -> Option<string>, temp: string, audio: Bytes)
    requires temp !in readOnly && IsWav(temp)
    ensures PlaybackEffect(files, readOnly, codec, play, temp, audio).0
            == Success(Played(PlayAudio(play, temp)))
  {
    ToolConvertReports(files[temp := []], readOnly, codec, audio, temp);
  }

  /** Delivery of decoded audio: playback first, then a save path, then the server's base64 text `encoded`. */
  function DeliverAudio(files: map<string, Bytes>, readOnly: set<string>, codec: Codec, play: string -> Option<string>,
                        temp: string, playback: bool, savePath: Option<string>, audio: Bytes, encoded: string)
    : (r: (Result<ToolResult, Exception>, map<string, Bytes>))
  {
    if playback then PlaybackEffect(files, readOnly, codec, play, temp, audio)
    else if IsSet(savePath) then
      var (converted, written) := ToolConvertEffect(files, readOnly, codec, audio, savePath.value);
      (if converted.Failure? then Failure(converted.error) else Success(Saved(converted.value, savePath.value)), written)
    else (Success(Inline(encoded)), files)
  }

  /**
   * Exactly one delivery happens: playback whatever the save path; otherwise a
   * save path, reported with its path, and no other file changes; otherwise
   * the server's base64 text unchanged, and no file changes.
   */
  lemma DeliveryRouting(files: map<string, Bytes>, readOnly: set<string>, codec: Codec, play: string -> Option<string>,
                        temp: string, playback: bool, savePath: Option<string>, audio: Bytes, encoded: string)
    ensures playback ==>
              DeliverAudio(files, readOnly, codec, play, temp, playback, savePath, audio, encoded)
              == PlaybackEffect(files, readOnly, codec, play, temp, audio)
    ensures var (r, after) := DeliverAudio(files, readOnly, codec, play, temp, playback, savePath, audio, encoded);
            !playback && IsSet(savePath) ==>
              && (r.Success? ==> r.value.Saved? && r.value.filePath == savePath.value)
              && forall p :: p != savePath.value ==> (p in after <==> p in files) && (p in files ==> after[p] == files[p])
    ensures !playback && !IsSet(savePath) ==>
              DeliverAudio(files, readOnly, codec, play, temp, playback, savePath, audio, encoded)
              == (Success(Inline(encoded)), files)
  {
  }

  /** Synthesize mode: the result before exceptions are turned into results, the files, and the requests sent. */
  function SynthesizeModeEffect(args: ToolArgs, base: string, files: map<string, Bytes>, readOnly: set<string>,
                                codec: Codec, decode: string -> Result<Bytes, string>, server: HttpRequest -> Exchange,
                                play: string -> Option<string>, temp: string)
    : (r: (Result<ToolResult, Exception>, map<string, Bytes>, seq<HttpRequest>))
  {
    if !IsSet(args.text) then (Failure(ArgumentError(TextRequired)), files, [])
    else
      var request := Post(base + "/synthesize",
                          SynthesizeBody(ToolPayload(args.text.value, args.voiceStyle, args.quality, args.speed)));
      var (r, after) := ReplyEffect(Receive(server(request)), files, readOnly, codec, decode, play, temp,
                                    args.playback, args.savePath);
      (r, after, [request])
  }

  /** What synthesize mode makes of the server's answer: its audio is decoded and delivered. */
  function ReplyEffect(reply: Result<Reply, Exception>, files: map<string, Bytes>, readOnly: set<string>,
                       codec: Codec, decode: string -> Result<Bytes, string>, play: string -> Option<string>,
                       temp: string, playback: bool, savePath: Option<string>)
    : (r: (Result<ToolResult, Exception>, map<string, Bytes>))
  {
    match reply
    case Failure(e) => (Failure(e), files)
    case Success(reply) =>
      match DecodeAudio(reply.audioBase64, decode)
      case Failure(e) => (Failure(e), files)
      case Success(audio) =>
        DeliverAudio(files, readOnly, codec, play, temp, playback, savePath, audio, reply.audioBase64.value)
  }

  // ---------------------------------------------------------------------------
  // Batch mode
  // ---------------------------------------------------------------------------

  /** Saving audio to a target path: the result message, and the files afterwards. */
  type Converter = (map<string, Bytes>, Bytes, string) -> (Result<string, Exception>, map<string, Bytes>)

  /** `_convert_audio_format` on a file system with the given read-only paths and codec. */
  function ToolConverter(readOnly: set<string>, codec: Codec): Converter {
    (files, wav, target) => ToolConvertEffect(files, readOnly, codec, wav, target)
  }

  /** A conversion that changes no file but its target. */
  ghost predicate ChangesOnlyTarget(convert: Converter) {
    forall files, wav, target :: convert(files, wav, target).1 - {target} == files - {target}
  }

  /** A conversion that, when it succeeds, leaves the audio itself at `target`. */
  ghost predicate StoresAsIs(convert: Converter, target: string) {
    forall files, wav :: convert(files, wav, target).0.Success? ==>
      target in convert(files, wav, target).1 && convert(files, wav, target).1[target] == wav
  }

  lemma ToolConverterChangesOnlyTarget(readOnly: set<string>, codec: Codec)
    ensures ChangesOnlyTarget(ToolConverter(readOnly, codec))
  {
    forall files, wav, target
      ensures ToolConverter(readOnly, codec)(files, wav, target).1 - {target} == files - {target}
    {
      ConvertChangesOnlyTarget(files, readOnly, codec, wav, target);
    }
  }

  lemma ToolConverterStoresWav(readOnly: set<string>, codec: Codec, target: string)
    requires IsWav(target)
    ensures StoresAsIs(ToolConverter(readOnly, codec), target)
  {
    forall files, wav {
      ToolConvertWritesWav(files, readOnly, codec, wav, target);
    }
  }

  /**
   * The `saved_files` loop from item `i` on, `paths` holding the output file
   * of every item and `saved` the paths of the items before `i`; the first item
   * that cannot be decoded or saved ends it.
   */
  function SaveAllFrom(items: seq<Item>, decode: string -> Result<Bytes, string>, convert: Converter,
                       paths: seq<string>, i: nat, saved: seq<string>, files: map<string, Bytes>)
    : (r: (Result<seq<string>, Exception>, map<string, Bytes>))
    requires i <= |items| == |paths|
    decreases |items| - i
  {
    if i == |items| then (Success(saved), files)
    else
      match DecodeAudio(items[i].audioBase64, decode)
      case Failure(e) => (Failure(e), files)
      case Success(audio) =>
        var (converted, written) := convert(files, audio, paths[i]);
        if converted.Failure? then (Failure(converted.error), written)
        else SaveAllFrom(items, decode, convert, paths, i + 1, saved + [paths[i]], written)
  }

  /** A completed batch lists the output file of every result, in result order. */
  lemma {:induction false} SaveAllPaths(items: seq<Item>, decode: string -> Result<Bytes, string>, convert: Converter,
                                        paths: seq<string>, i: nat, saved: seq<string>, files: map<string, Bytes>)
    requires i <= |items| == |paths| && saved == paths[..i]
    ensures var r := SaveAllFrom(items, decode, convert, paths, i, saved, files).0;
            r.Success? ==> r.value == paths
    decreases |items| - i
  {
    if i == |items| {
      assert paths[..i] == paths;
    } else {
      var d := DecodeAudio(items[i].audioBase64, decode);
      if d.Success? {
        var step := convert(files, d.value, paths[i]);
        if step.0.Success? {
          assert paths[..i + 1] == saved + [paths[i]];
          SaveAllPaths(items, decode, convert, paths, i + 1, paths[..i + 1], step.1);
        }
      }
    }
  }

  /** Files other than the outputs of items `i` onwards are left as they are. */
  lemma {:induction false} SaveAllKeeps(items: seq<Item>, decode: string -> Result<Bytes, string>, convert: Converter,
                                        paths: seq<string>, i: nat, saved: seq<string>, files: map<string, Bytes>,
                                        p: string)
    requires i <= |items| == |paths| && forall k :: i <= k < |items| ==> p != paths[k]
    requires ChangesOnlyTarget(convert)
    ensures var after := SaveAllFrom(items, decode, convert, paths, i, saved, files).1;
            (p in after <==> p in files) && (p in files ==> after[p] == files[p])
    decreases |items| - i
  {
    if i < |items| {
      var d := DecodeAudio(items[i].audioBase64, decode);
      if d.Success? {
        var (converted, written) := convert(files, d.value, paths[i]);
        assert written - {paths[i]} == files - {paths[i]};
        assert (p in written <==> p in files) && (p in files ==> written[p] == files[p]) by {
          assert p in written <==> p in written - {paths[i]};
          assert p in files <==> p in files - {paths[i]};
        }
        if converted.Success? {
          SaveAllKeeps(items, decode, convert, paths, i + 1, saved + [paths[i]], written, p);
        }
      }
    }
  }

  /** After a completed batch, an output file no later item overwrites holds the decoded audio of its result. */
  lemma {:induction false} SaveAllContents(items: seq<Item>, decode: string -> Result<Bytes, string>, convert: Converter,
                                           paths: seq<string>, i: nat, saved: seq<string>, files: map<string, Bytes>,
                                           k: nat)
    requires i <= k < |items| == |paths|
    requires ChangesOnlyTarget(convert) && StoresAsIs(convert, paths[k])
    requires forall j :: k < j < |items| ==> paths[j] != paths[k]
    ensures var r := SaveAllFrom(items, decode, convert, paths, i, saved, files);
            r.0.Success? ==>
              paths[k] in r.1 && DecodeAudio(items[k].audioBase64, decode) == Success(r.1[paths[k]])
    decreases |items| - i
  {
    var d := DecodeAudio(items[i].audioBase64, decode);
    if d.Success? {
      var (converted, written) := convert(files, d.value, paths[i]);
      if converted.Success? {
        if k == i {
          SaveAllKeeps(items, decode, convert, paths, i + 1, saved + [paths[i]], written, paths[i]);
        } else {
          SaveAllContents(items, decode, convert, paths, i + 1, saved + [paths[i]], written, k);
        }
      }
    }
  }

  /**
   * Item `k` fails with `e` when the files are `reached`: its audio does not
   * decode and the files stay `reached`, or converting it to its output file
   * raises `e` and leaves `after`.
   */
  predicate ConvertFailedAt(items: seq<Item>, decode: string -> Result<Bytes, string>, convert: Converter,
                            paths: seq<string>, k: nat, e: Exception, reached: map<string, Bytes>,
                            after: map<string, Bytes>)
    requires k < |items| == |paths|
  {
    match DecodeAudio(items[k].audioBase64, decode)
    case Failure(error) => e == error && after == reached
    case Success(audio) => convert(reached, audio, paths[k]) == (Failure(e), after)
  }

  /**
   * The saving loop started at item `i` on `before` stops at item `k` with
   * `e`: the items from `i` up to `k` decode and convert without error, item
   * `k` then fails with `e` on the files they leave, giving `after`, and the
   * output files of the items after `k` are in `after` as they were in `before`.
   */
  predicate SaveAllStopsAt(items: seq<Item>, decode: string -> Result<Bytes, string>, convert: Converter,
                           paths: seq<string>, i: nat, saved: seq<string>, k: nat, e: Exception,
                           before: map<string, Bytes>, after: map<string, Bytes>)
    requires |items| == |paths|
  {
    && i <= k < |items|
    && (forall j :: k < j < |items| ==> SameAt(before, after, paths[j]))
    && var run := SaveAllFrom(items[..k], decode, convert, paths[..k], i, saved, before);
       run.0.Success? && ConvertFailedAt(items, decode, convert, paths, k, e, run.1, after)
  }

  /**
   * With output files that are pairwise different and a conversion that
   * changes nothing but its target, a failed loop stops at the first item
   * that fails, with that item's error, and the items after it are not
   * processed.
   */
  lemma {:induction false} SaveAllStopsAtFirstFailure(items: seq<Item>, decode: string -> Result<Bytes, string>,
                                                      convert: Converter, paths: seq<string>, i: nat,
                                                      saved: seq<string>, files: map<string, Bytes>)
    requires i <= |items| == |paths|
    requires forall j, k :: i <= j < k < |items| ==> paths[j] != paths[k]
    requires ChangesOnlyTarget(convert)
    ensures var r := SaveAllFrom(items, decode, convert, paths, i, saved, files);
            r.0.Failure? ==> exists k :: SaveAllStopsAt(items, decode, convert, paths, i, saved, k, r.0.error, files, r.1)
    decreases |items| - i
  {
    if i < |items| {
      var r := SaveAllFrom(items, decode, convert, paths, i, saved, files);
      var d := DecodeAudio(items[i].audioBase64, decode);
      if d.Failure? {
        SaveStopsAtItem(items, decode, convert, paths, i, saved, r.0.error, files, r.1);
      } else {
        var (converted, written) := convert(files, d.value, paths[i]);
        assert written - {paths[i]} == files - {paths[i]};
        if converted.Failure? {
          SaveStopsAtItem(items, decode, convert, paths, i, saved, converted.error, files, written);
        } else if r.0.Failure? {
          SaveAllStopsAtFirstFailure(items, decode, convert, paths, i + 1, saved + [paths[i]], written);
          var k :| SaveAllStopsAt(items, decode, convert, paths, i + 1, saved + [paths[i]], k, r.0.error, written, r.1);
          SaveStopsLater(items, decode, convert, paths, i, saved, d.value, converted.value, k, r.0.error, files,
                         written, r.1);
        }
      }
    }
  }

  /** An item that fails on the files the loop started with, changing only its target, stops the loop there. */
  lemma SaveStopsAtItem(items: seq<Item>, decode: string -> Result<Bytes, string>, convert: Converter,
                        paths: seq<string>, i: nat, saved: seq<string>, e: Exception, files: map<string, Bytes>,
                        after: map<string, Bytes>)
    requires i < |items| == |paths| && forall j :: i < j < |items| ==> paths[j] != paths[i]
    requires ConvertFailedAt(items, decode, convert, paths, i, e, files, after)
    requires after - {paths[i]} == files - {paths[i]}
    ensures SaveAllStopsAt(items, decode, convert, paths, i, saved, i, e, files, after)
  {
    forall j | i < j < |items| ensures SameAt(files, after, paths[j]) {
      AgreeBesides(files, after, paths[i], paths[j]);
    }
  }

  /** A stop after item `i`, which converted without error and changed only its own target, is a stop of the loop from `i`. */
  lemma SaveStopsLater(items: seq<Item>, decode: string -> Result<Bytes, string>, convert: Converter,
                       paths: seq<string>, i: nat, saved: seq<string>, audio: Bytes, message: string, k: nat,
                       e: Exception, files: map<string, Bytes>, written: map<string, Bytes>, after: map<string, Bytes>)
    requires i < |items| == |paths| && forall j :: i < j < |items| ==> paths[j] != paths[i]
    requires DecodeAudio(items[i].audioBase64, decode) == Success(audio)
    requires convert(files, audio, paths[i]) == (Success(message), written) && written - {paths[i]} == files - {paths[i]}
    requires SaveAllStopsAt(items, decode, convert, paths, i + 1, saved + [paths[i]], k, e, written, after)
    ensures SaveAllStopsAt(items, decode, convert, paths, i, saved, k, e, files, after)
  {
    var prefix, targets := items[..k], paths[..k];
    assert prefix[i] == items[i] && targets[i] == paths[i];
    assert SaveAllFrom(prefix, decode, convert, targets, i, saved, files)
        == SaveAllFrom(prefix, decode, convert, targets, i + 1, saved + [paths[i]], written);
    forall j | k < j < |items| ensures SameAt(files, after, paths[j]) {
      AgreeBesides(files, written, paths[i], paths[j]);
    }
  }

  /** `[item["audio_base64"] for item in results]`: a KeyError at the first item without the key. */
  function Base64List(items: seq<Item>): (r: Result<seq<string>, Exception>)
    ensures r.Success? <==> forall k :: 0 <= k < |items| ==> items[k].audioBase64.Some?
    ensures r.Success? ==> |r.value| == |items| && forall k :: 0 <= k < |items| ==> r.value[k] == items[k].audioBase64.value
    ensures r.Failure? ==> r.error == KeyError("audio_base64")
  {
    if items == [] then Success([])
    else if items[0].audioBase64.None? then Failure(KeyError("audio_base64"))
    else
      match Base64List(items[1..])
      case Failure(e) => Failure(e)
      case Success(rest) => Success([items[0].audioBase64.value] + rest)
  }

  /** What batch mode does with the server's answer. */
  function BatchDeliverEffect(files: map<string, Bytes>, readOnly: set<string>, codec: Codec,
                              decode: string -> Result<Bytes, string>, saveDir: Option<string>, answer: Exchange)
    : (r: (Result<ToolResult, Exception>, map<string, Bytes>))
  {
    match Receive(answer)
    case Failure(e) => (Failure(e), files)
    case Success(reply) =>
      if reply.results.None? then (Failure(KeyError("results")), files)
      else if IsSet(saveDir) then
        var items := reply.results.value;
        var (saved, written) :=
          SaveAllFrom(items, decode, ToolConverter(readOnly, codec), OutputPaths(saveDir.value, |items|), 0, [], files);
        (if saved.Failure? then Failure(saved.error)
         else Success(BatchSaved("Batch synthesis complete. Saved " + NatToString(|saved.value|) + " files.",
                                 saved.value)),
         written)
      else
        match Base64List(reply.results.value)
        case Failure(e) => (Failure(e), files)
        case Success(list) => (Success(BatchInline(list)), files)
  }

  /** A batch saved to a directory leaves the decoded audio of result `k` in its output file, for every `k`. */
  lemma BatchSavesEveryResult(files: map<string, Bytes>, readOnly: set<string>, codec: Codec,
                              decode: string -> Result<Bytes, string>, saveDir: Option<string>, answer: Exchange)
    requires IsSet(saveDir)
    ensures var (r, after) := BatchDeliverEffect(files, readOnly, codec, decode, saveDir, answer);
            r.Success? ==>
              && Receive(answer).Success? && Receive(answer).value.results.Some?
              && var items := Receive(answer).value.results.value;
                 forall k :: 0 <= k < |items| ==>
                   && OutputPath(saveDir.value, k) in after
                   && DecodeAudio(items[k].audioBase64, decode) == Success(after[OutputPath(saveDir.value, k)])
  {
    var reply := Receive(answer);
    if reply.Success? && reply.value.results.Some? {
      var items := reply.value.results.value;
      var paths := OutputPaths(saveDir.value, |items|);
      var convert := ToolConverter(readOnly, codec);
      OutputPathsDistinctWav(saveDir.value, |items|);
      ToolConverterChangesOnlyTarget(readOnly, codec);
      forall k | 0 <= k < |items|
        ensures var r := SaveAllFrom(items, decode, convert, paths, 0, [], files);
                r.0.Success? ==> paths[k] in r.1 && DecodeAudio(items[k].audioBase64, decode) == Success(r.1[paths[k]])
      {
        ToolConverterStoresWav(readOnly, codec, paths[k]);
        SaveAllContents(items, decode, convert, paths, 0, [], files, k);
      }
    }
  }

  /**
   * A batch saved to a directory that fails after the reply arrived stops
   * at the first result that fails, with its decoding or conversion error,
   * and the output files of the later results are left as they were.
   */
  lemma BatchStopsAtFirstFailure(files: map<string, Bytes>, readOnly: set<string>, codec: Codec,
                                 decode: string -> Result<Bytes, string>, saveDir: Option<string>, answer: Exchange)
    requires IsSet(saveDir)
    ensures var (r, after) := BatchDeliverEffect(files, readOnly, codec, decode, saveDir, answer);
            r.Failure? && Receive(answer).Success? && Receive(answer).value.results.Some? ==>
              var items := Receive(answer).value.results.value;
              exists k :: SaveAllStopsAt(items, decode, ToolConverter(readOnly, codec),
                                         OutputPaths(saveDir.value, |items|), 0, [], k, r.error, files, after)
  {
    var reply := Receive(answer);
    if reply.Success? && reply.value.results.Some? {
      var items := reply.value.results.value;
      OutputPathsDistinctWav(saveDir.value, |items|);
      ToolConverterChangesOnlyTarget(readOnly, codec);
      SaveAllStopsAtFirstFailure(items, decode, ToolConverter(readOnly, codec), OutputPaths(saveDir.value, |items|), 0,
                                 [], files);
    }
  }

  /** The saved-files message counts exactly the results of the reply, and names their files in order. */
  lemma BatchMessageCountsResults(files: map<string, Bytes>, readOnly: set<string>, codec: Codec,
                                  decode: string -> Result<Bytes, string>, saveDir: Option<string>, answer: Exchange)
    requires IsSet(saveDir)
    ensures var r := BatchDeliverEffect(files, readOnly, codec, decode, saveDir, answer).0;
            r.Success? ==>
              && Receive(answer).Success? && Receive(answer).value.results.Some?
              && var n := |Receive(answer).value.results.value|;
              && r.value == BatchSaved("Batch synthesis complete. Saved " + NatToString(n) + " files.",
                                       OutputPaths(saveDir.value, n))
  {
    var reply := Receive(answer);
    if reply.Success? && reply.value.results.Some? {
      var items := reply.value.results.value;
      var paths := OutputPaths(saveDir.value, |items|);
      assert paths[..0] == [];
      SaveAllPaths(items, decode, ToolConverter(readOnly, codec), paths, 0, [], files);
    }
  }

  /** The argument error batch mode raises before sending anything, if any. */
  function BatchArgumentError(texts: Option<seq<string>>, voiceStyles: Option<seq<string>>): (r: Option<Problem>)
    ensures r.None? <==> texts.Some? && texts.value != []
                         && (voiceStyles.None? || voiceStyles.value == [] || |voiceStyles.value| == |texts.value|)
    ensures r == Some(TextsRequired) <==> texts.None? || texts.value == []
  {
    if texts.None? || texts.value == [] then Some(TextsRequired)
    else if voiceStyles.Some? && voiceStyles.value != [] && |texts.value| != |voiceStyles.value| then Some(LengthsDiffer)
    else None
  }

  /** Batch mode: the result before exceptions are turned into results, the files, and the requests sent. */
  function BatchModeEffect(args: ToolArgs, base: string, files: map<string, Bytes>, readOnly: set<string>,
                           codec: Codec, decode: string -> Result<Bytes, string>, server: HttpRequest -> Exchange)
    : (r: (Result<ToolResult, Exception>, map<string, Bytes>, seq<HttpRequest>))
  {
    match BatchArgumentError(args.texts, args.voiceStyles)
    case Some(problem) => (Failure(ArgumentError(problem)), files, [])
    case None =>
      var texts := args.texts.value;
      var voices := FinalVoices(texts, args.voiceStyles, args.voiceStyle);
      var request := Post(base + "/batch", BatchBody(ToolBatchRequests(texts, voices, args.quality, args.speed)));
      var (r, after) := BatchDeliverEffect(files, readOnly, codec, decode, args.saveDir, server(request));
      (r, after, [request])
  }

  // ---------------------------------------------------------------------------
  // The tool
  // ---------------------------------------------------------------------------

  /** The result, the files afterwards and the requests sent by one call of the tool. */
  datatype ToolRun = ToolRun(result: ToolResult, files: map<string, Bytes>, sent: seq<HttpRequest>)

  /** Health mode: the server's JSON as the result. */
  function HealthResult(base: string, server: HttpRequest -> Exchange): (r: Result<ToolResult, Exception>)
  {
    match Receive(server(Get(base + "/health")))
    case Failure(e) => Failure(e)
    case Success(reply) => Success(HealthReport(reply))
  }

  /** The mode dispatch, before exceptions are turned into results. */
  function ModeEffect(args: ToolArgs, files: map<string, Bytes>, readOnly: set<string>, codec: Codec,
                      decode: string -> Result<Bytes, string>, server: HttpRequest -> Exchange,
                      play: string -> Option<string>, temp: string)
    : (r: (Result<ToolResult, Exception>, map<string, Bytes>, seq<HttpRequest>))
  {
    var base := RStrip(args.serverUrl, '/');
    if args.mode == "health" then (HealthResult(base, server), files, [Get(base + "/health")])
    else if args.mode == "synthesize" then
      SynthesizeModeEffect(args, base, files, readOnly, codec, decode, server, play, temp)
    else if args.mode == "batch_synthesize" then BatchModeEffect(args, base, files, readOnly, codec, decode, server)
    else (Failure(ArgumentError(InvalidMode(args.mode))), files, [])
  }

  /** One call of the tool: every exception becomes an error result, so the tool never raises. */
  function ToolEffect(args: ToolArgs, files: map<string, Bytes>, readOnly: set<string>, codec: Codec,
                      decode: string -> Result<Bytes, string>, server: HttpRequest -> Exchange,
                      play: string -> Option<string>, temp: string): ToolRun
  {
    var run := ModeEffect(args, files, readOnly, codec, decode, server, play, temp);
    ToolRun(Report(run.0, RStrip(args.serverUrl, '/')), run.1, run.2)
  }

  /** The tool's result for the outcome of its mode: an exception becomes an error result. */
  function Report(outcome: Result<ToolResult, Exception>, baseUrl: string): ToolResult {
    if outcome.Success? then outcome.value else Error(Catch(outcome.error, baseUrl))
  }

  /**
   * A server that cannot be reached is reported as a connection failure at the
   * base URL without its trailing slashes, in every mode that gets as far as a
   * request, and no file is left changed.
   */
  lemma UnreachableServerReported(args: ToolArgs, files: map<string, Bytes>, readOnly: set<string>, codec: Codec,
                                  decode: string -> Result<Bytes, string>, server: HttpRequest -> Exchange,
                                  play: string -> Option<string>, temp: string)
    requires forall request :: server(request).Unreachable?
    requires args.mode == "health"
             || (args.mode == "synthesize" && IsSet(args.text))
             || (args.mode == "batch_synthesize" && BatchArgumentError(args.texts, args.voiceStyles).None?)
    ensures var run := ToolEffect(args, files, readOnly, codec, decode, server, play, temp);
            && run.result == Error(ConnectionFailed(RStrip(args.serverUrl, '/')))
            && run.files == files && |run.sent| == 1
  {
    ModeUnreachable(args, files, readOnly, codec, decode, server, play, temp);
  }

  /** With an unreachable server, each mode that sends its request fails with a ConnectionError and changes no file. */
  lemma ModeUnreachable(args: ToolArgs, files: map<string, Bytes>, readOnly: set<string>, codec: Codec,
                        decode: string -> Result<Bytes, string>, server: HttpRequest -> Exchange,
                        play: string -> Option<string>, temp: string)
    requires forall request :: server(request).Unreachable?
    requires args.mode == "health"
             || (args.mode == "synthesize" && IsSet(args.text))
             || (args.mode == "batch_synthesize" && BatchArgumentError(args.texts, args.voiceStyles).None?)
    ensures var run := ModeEffect(args, files, readOnly, codec, decode, server, play, temp);
            run.0.Failure? && run.0.error.ConnectionError? && run.1 == files && |run.2| == 1
  {
    var base := RStrip(args.serverUrl, '/');
    if args.mode == "health" {
      assert server(Get(base + "/health")).Unreachable?;
    } else if args.mode == "synthesize" {
      SynthesizeUnreachable(args, base, files, readOnly, codec, decode, server, play, temp);
    } else {
      BatchUnreachable(args, base, files, readOnly, codec, decode, server);
    }
  }

  lemma SynthesizeUnreachable(args: ToolArgs, base: string, files: map<string, Bytes>, readOnly: set<string>,
                              codec: Codec, decode: string -> Result<Bytes, string>, server: HttpRequest -> Exchange,
                              play: string -> Option<string>, temp: string)
    requires forall request :: server(request).Unreachable?
    requires IsSet(args.text)
    ensures var run := SynthesizeModeEffect(args, base, files, readOnly, codec, decode, server, play, temp);
            run.0.Failure? && run.0.error.ConnectionError? && run.1 == files && |run.2| == 1
  {
    var request := Post(base + "/synthesize",
                        SynthesizeBody(ToolPayload(args.text.value, args.voiceStyle, args.quality, args.speed)));
    assert server(request).Unreachable?;
  }

  lemma BatchUnreachable(args: ToolArgs, base: string, files: map<string, Bytes>, readOnly: set<string>,
                         codec: Codec, decode: string -> Result<Bytes, string>, server: HttpRequest -> Exchange)
    requires forall request :: server(request).Unreachable?
    requires BatchArgumentError(args.texts, args.voiceStyles).None?
    ensures var run := BatchModeEffect(args, base, files, readOnly, codec, decode, server);
            run.0.Failure? && run.0.error.ConnectionError? && run.1 == files && |run.2| == 1
  {
    var texts := args.texts.value;
    var voices := FinalVoices(texts, args.voiceStyles, args.voiceStyle);
    var request := Post(base + "/batch", BatchBody(ToolBatchRequests(texts, voices, args.quality, args.speed)));
    assert server(request).Unreachable?;
  }

  /** Missing text, missing texts, mismatched voice lists and unknown modes are errors raised before any request. */
  lemma ArgumentErrorsSendNothing(args: ToolArgs, files: map<string, Bytes>, readOnly: set<string>, codec: Codec,
                                  decode: string -> Result<Bytes, string>, server: HttpRequest -> Exchange,
                                  play: string -> Option<string>, temp: string)
    ensures args.mode == "synthesize" && !IsSet(args.text) ==>
              ToolEffect(args, files, readOnly, codec, decode, server, play, temp)
              == ToolRun(Error(InvalidValue(ArgumentError(TextRequired))), files, [])
    ensures args.mode == "batch_synthesize" && (args.texts.None? || args.texts.value == []) ==>
              ToolEffect(args, files, readOnly, codec, decode, server, play, temp)
              == ToolRun(Error(InvalidValue(ArgumentError(TextsRequired))), files, [])
    ensures args.mode == "batch_synthesize" && args.texts.Some? && args.texts.value != []
            && args.voiceStyles.Some? && args.voiceStyles.value != []
            && |args.voiceStyles.value| != |args.texts.value| ==>
              ToolEffect(args, files, readOnly, codec, decode, server, play, temp)
              == ToolRun(Error(InvalidValue(ArgumentError(LengthsDiffer))), files, [])
    ensures args.mode != "health" && args.mode != "synthesize" && args.mode != "batch_synthesize" ==>
              ToolEffect(args, files, readOnly, codec, decode, server, play, temp)
              == ToolRun(Error(InvalidValue(ArgumentError(InvalidMode(args.mode)))), files, [])
  {
    var run := ModeEffect(args, files, readOnly, codec, decode, server, play, temp);
    var problem;
    if args.mode == "synthesize" && !IsSet(args.text) {
      problem := TextRequired;
    } else if args.mode == "batch_synthesize" && BatchArgumentError(args.texts, args.voiceStyles).Some? {
      problem := BatchArgumentError(args.texts, args.voiceStyles).value;
    } else if args.mode != "health" && args.mode != "synthesize" && args.mode != "batch_synthesize" {
      problem := InvalidMode(args.mode);
    } else {
      return;
    }
    assert run == (Failure(ArgumentError(problem)), files, []);
  }

  /** The playback branch of synthesize mode. */
  method PlayThroughTemp(fs: FileSystem, codec: Codec, play: string -> Option<string>, audio: Bytes)
    returns (r: Result<ToolResult, Exception>, ghost temp: string)
    modifies fs
    ensures temp !in old(fs.files)
    ensures (r, fs.files) == PlaybackEffect(old(fs.files), fs.readOnly, codec, play, temp, audio)
  {
    var tempPath := fs.CreateTemp(OutputDir, "tmp", DefaultFormat, {});
    temp := tempPath;
    // try:
    var converted := ToolConvertAudioFormat(fs, codec, audio, tempPath);
    if converted.Failure? {
      r := Failure(converted.error);
    } else {
      r := Success(Played(PlayAudio(play, tempPath)));
    }
    // finally: unlink, ignoring a file that is already gone
    var _ := fs.Unlink(tempPath);
  }

  /** Delivery of decoded audio in synthesize mode. */
  method Deliver(fs: FileSystem, codec: Codec, play: string -> Option<string>, playback: bool,
                 savePath: Option<string>, audio: Bytes, encoded: string)
    returns (r: Result<ToolResult, Exception>, ghost temp: string)
    modifies fs
    ensures temp !in old(fs.files)
    ensures (r, fs.files) == DeliverAudio(old(fs.files), fs.readOnly, codec, play, temp, playback, savePath, audio, encoded)
  {
    temp := UnusedName(fs.files);
    if playback {
      r, temp := PlayThroughTemp(fs, codec, play, audio);
    } else if IsSet(savePath) {
      var converted := ToolConvertAudioFormat(fs, codec, audio, savePath.value);
      r := if converted.Failure? then Failure(converted.error) else Success(Saved(converted.value, savePath.value));
    } else {
      r := Success(Inline(encoded));
    }
  }

  /** Synthesize mode. */
  method SynthesizeMode(args: ToolArgs, base: string, session: Session, fs: FileSystem, codec: Codec,
                        decode: string -> Result<Bytes, string>, play: string -> Option<string>)
    returns (r: Result<ToolResult, Exception>, ghost temp: string)
    modifies session, fs
    ensures temp !in old(fs.files)
    ensures var (outcome, after, sent) :=
              SynthesizeModeEffect(args, base, old(fs.files), fs.readOnly, codec, decode, session.server, play, temp);
            r == outcome && fs.files == after && session.sent == old(session.sent) + sent
  {
    temp := UnusedName(fs.files);
    if !IsSet(args.text) {
      return Failure(ArgumentError(TextRequired)), temp;
    }
    var payload := ToolPayload(args.text.value, args.voiceStyle, args.quality, args.speed);
    var response := session.Send(Post(base + "/synthesize", SynthesizeBody(payload)));
    r, temp := HandleReply(response, fs, codec, decode, play, args.playback, args.savePath);
  }

  /** The answer of the server in synthesize mode: its audio decoded, then delivered. */
  method HandleReply(reply: Result<Reply, Exception>, fs: FileSystem, codec: Codec,
                     decode: string -> Result<Bytes, string>, play: string -> Option<string>,
                     playback: bool, savePath: Option<string>)
    returns (r: Result<ToolResult, Exception>, ghost temp: string)
    modifies fs
    ensures temp !in old(fs.files)
    ensures (r, fs.files) == ReplyEffect(reply, old(fs.files), fs.readOnly, codec, decode, play, temp, playback, savePath)
  {
    temp := UnusedName(fs.files);
    if reply.Failure? {
      return Failure(reply.error), temp;
    }
    var audio := DecodeAudio(reply.value.audioBase64, decode);
    if audio.Failure? {
      return Failure(audio.error), temp;
    }
    r, temp := Deliver(fs, codec, play, playback, savePath, audio.value, reply.value.audioBase64.value);
  }

  /** The `saved_files` loop of batch mode. */
  method SaveAll(items: seq<Item>, dir: string, fs: FileSystem, codec: Codec, decode: string -> Result<Bytes, string>)
    returns (r: Result<seq<string>, Exception>)
    modifies fs
    ensures (r, fs.files)
            == SaveAllFrom(items, decode, ToolConverter(fs.readOnly, codec), OutputPaths(dir, |items|), 0, [], old(fs.files))
  {
    ghost var paths := OutputPaths(dir, |items|);
    ghost var convert := ToolConverter(fs.readOnly, codec);
    var saved: seq<string> := [];
    var i := 0;
    while i < |items|
      invariant 0 <= i <= |items|
      invariant SaveAllFrom(items, decode, convert, paths, 0, [], old(fs.files))
                == SaveAllFrom(items, decode, convert, paths, i, saved, fs.files)
    {
      var audio := DecodeAudio(items[i].audioBase64, decode);
      if audio.Failure? {
        return Failure(audio.error);
      }
      var outputFile := ToolOutputPath(dir, i);
      var converted := ToolConvertAudioFormat(fs, codec, audio.value, outputFile);
      if converted.Failure? {
        return Failure(converted.error);
      }
      saved := saved + [outputFile];
      i := i + 1;
    }
    r := Success(saved);
  }

  /** Batch mode. */
  method BatchMode(args: ToolArgs, base: string, session: Session, fs: FileSystem, codec: Codec,
                   decode: string -> Result<Bytes, string>)
    returns (r: Result<ToolResult, Exception>)
    modifies session, fs
    ensures var effect := BatchModeEffect(args, base, old(fs.files), fs.readOnly, codec, decode, session.server);
            r == effect.0 && fs.files == effect.1 && session.sent == old(session.sent) + effect.2
  {
    var error := BatchArgumentError(args.texts, args.voiceStyles);
    if error.Some? {
      return Failure(ArgumentError(error.value));
    }
    var texts := args.texts.value;
    var voices := FinalVoices(texts, args.voiceStyles, args.voiceStyle);
    var requests := ToolBatchRequests(texts, voices, args.quality, args.speed);
    var response := session.Send(Post(base + "/batch", BatchBody(requests)));
    if response.Failure? {
      return Failure(response.error);
    }
    if response.value.results.None? {
      return Failure(KeyError("results"));
    }
    if IsSet(args.saveDir) {
      var saved := SaveAll(response.value.results.value, args.saveDir.value, fs, codec, decode);
      r := if saved.Failure? then Failure(saved.error)
           else Success(BatchSaved("Batch synthesis complete. Saved " + NatToString(|saved.value|) + " files.",
                                   saved.value));
    } else {
      var list := Base64List(response.value.results.value);
      r := if list.Failure? then Failure(list.error) else Success(BatchInline(list.value));
    }
  }

  /** Health mode. */
  method HealthMode(base: string, session: Session) returns (r: Result<ToolResult, Exception>)
    modifies session
    ensures r == HealthResult(base, session.server)
    ensures session.sent == old(session.sent) + [Get(base + "/health")]
  {
    var reply := session.Send(Get(base + "/health"));
    r := if reply.Failure? then Failure(reply.error) else Success(HealthReport(reply.value));
  }

  /** The effect of a health call. */
  lemma HealthDispatch(args: ToolArgs, files: map<string, Bytes>, readOnly: set<string>, codec: Codec,
                       decode: string -> Result<Bytes, string>, server: HttpRequest -> Exchange,
                       play: string -> Option<string>, temp: string)
    requires args.mode == "health"
    ensures var base := RStrip(args.serverUrl, '/');
            ToolEffect(args, files, readOnly, codec, decode, server, play, temp)
            == ToolRun(Report(HealthResult(base, server), base), files, [Get(base + "/health")])
  {
  }

  /** The effect of a synthesize call. */
  lemma SynthesizeDispatch(args: ToolArgs, files: map<string, Bytes>, readOnly: set<string>, codec: Codec,
                           decode: string -> Result<Bytes, string>, server: HttpRequest -> Exchange,
                           play: string -> Option<string>, temp: string)
    requires args.mode == "synthesize"
    ensures var base := RStrip(args.serverUrl, '/');
            var effect := SynthesizeModeEffect(args, base, files, readOnly, codec, decode, server, play, temp);
            ToolEffect(args, files, readOnly, codec, decode, server, play, temp)
            == ToolRun(Report(effect.0, base), effect.1, effect.2)
  {
  }

  /** The effect of a batch call. */
  lemma BatchDispatch(args: ToolArgs, files: map<string, Bytes>, readOnly: set<string>, codec: Codec,
                      decode: string -> Result<Bytes, string>, server: HttpRequest -> Exchange,
                      play: string -> Option<string>, temp: string)
    requires args.mode == "batch_synthesize"
    ensures var base := RStrip(args.serverUrl, '/');
            var effect := BatchModeEffect(args, base, files, readOnly, codec, decode, server);
            ToolEffect(args, files, readOnly, codec, decode, server, play, temp)
            == ToolRun(Report(effect.0, base), effect.1, effect.2)
  {
  }

  /** A health call of the tool, in its own session. */
  method HealthCall(args: ToolArgs, server: HttpRequest -> Exchange, fs: FileSystem, codec: Codec,
                    decode: string -> Result<Bytes, string>, play: string -> Option<string>)
    returns (r: ToolResult, ghost sent: seq<HttpRequest>, ghost temp: string)
    ensures temp !in fs.files
    ensures var base := RStrip(args.serverUrl, '/');
            r == Report(HealthResult(base, server), base) && sent == [Get(base + "/health")]
  {
    var base := RStrip(args.serverUrl, '/');
    temp := UnusedName(fs.files);
    var session := new Session(server);
    session.timeout := Some(args.requestTimeout);
    var outcome := HealthMode(base, session);
    session.Close();
    sent := session.sent;
    r := Report(outcome, base);
  }

  /** A synthesize call of the tool, in its own session. */
  method SynthesizeCall(args: ToolArgs, server: HttpRequest -> Exchange, fs: FileSystem, codec: Codec,
                        decode: string -> Result<Bytes, string>, play: string -> Option<string>)
    returns (r: ToolResult, ghost sent: seq<HttpRequest>, ghost temp: string)
    modifies fs
    ensures temp !in old(fs.files)
    ensures var base := RStrip(args.serverUrl, '/');
            var effect := SynthesizeModeEffect(args, base, old(fs.files), fs.readOnly, codec, decode, server, play, temp);
            r == Report(effect.0, base) && fs.files == effect.1 && sent == effect.2
  {
    var base := RStrip(args.serverUrl, '/');
    ghost var before := fs.files;
    var session := new Session(server);
    session.timeout := Some(args.requestTimeout);
    var outcome;
    outcome, temp := SynthesizeMode(args, base, session, fs, codec, decode, play);
    session.Close();
    sent := session.sent;
    r := Report(outcome, base);
  }

  /** A batch call of the tool, in its own session. */
  method BatchCall(args: ToolArgs, server: HttpRequest -> Exchange, fs: FileSystem, codec: Codec,
                   decode: string -> Result<Bytes, string>, play: string -> Option<string>)
    returns (r: ToolResult, ghost sent: seq<HttpRequest>, ghost temp: string)
    modifies fs
    ensures temp !in old(fs.files)
    ensures var base := RStrip(args.serverUrl, '/');
            var effect := BatchModeEffect(args, base, old(fs.files), fs.readOnly, codec, decode, server);
            r == Report(effect.0, base) && fs.files == effect.1 && sent == effect.2
  {
    var base := RStrip(args.serverUrl, '/');
    ghost var before := fs.files;
    temp := UnusedName(fs.files);
    var session := new Session(server);
    session.timeout := Some(args.requestTimeout);
    var outcome := BatchMode(args, base, session, fs, codec, decode);
    session.Close();
    sent := session.sent;
    r := Report(outcome, base);
  }

  /**
   * `supertonic_text_to_speech`; `play` is the audio device. The session is
   * opened for every mode, an unknown one included, and closed on the way out.
   */
  method TextToSpeech(args: ToolArgs, server: HttpRequest -> Exchange, fs: FileSystem, codec: Codec,
                      decode: string -> Result<Bytes, string>, play: string -> Option<string>)
    returns (r: ToolResult, ghost sent: seq<HttpRequest>, ghost temp: string)
    modifies fs
    ensures temp !in old(fs.files)
    ensures ToolRun(r, fs.files, sent) == ToolEffect(args, old(fs.files), fs.readOnly, codec, decode, server, play, temp)
  {
    ghost var before := fs.files;
    if args.mode == "health" {
      r, sent, temp := HealthCall(args, server, fs, codec, decode, play);
      HealthDispatch(args, before, fs.readOnly, codec, decode, server, play, temp);
    } else if args.mode == "synthesize" {
      r, sent, temp := SynthesizeCall(args, server, fs, codec, decode, play);
      SynthesizeDispatch(args, before, fs.readOnly, codec, decode, server, play, temp);
    } else if args.mode == "batch_synthesize" {
      r, sent, temp := BatchCall(args, server, fs, codec, decode, play);
      BatchDispatch(args, before, fs.readOnly, codec, decode, server, play, temp);
    } else {
      var session := new Session(server);
      session.Close();
      temp := UnusedName(fs.files);
      r, sent := Error(Catch(ArgumentError(InvalidMode(args.mode)), RStrip(args.serverUrl, '/'))), session.sent;
    }
  }
}
