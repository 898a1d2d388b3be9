/**
 * `SupertonicClient` of the command-line client: the request payloads it builds
 * from its arguments and the configuration, the single and batch calls, and
 * how a batch reply is decoded and saved item by item.
 */
module Client {
  import opened Wrappers
  import opened Text
  import opened Io
  import opened Settings
  import opened Audio

  /** `normalize_voice_style`: appends ".json" unless the name already ends with it. */
  function NormalizeVoiceStyle(voice: Option<string>): (r: Option<string>)
    ensures r.None? <==> voice.None?
    ensures r.Some? ==> EndsWith(r.value, ".json")
    ensures voice.Some? && EndsWith(voice.value, ".json") ==> r == voice
    ensures voice.Some? && !EndsWith(voice.value, ".json") ==> r == Some(voice.value + ".json")
  {
    match voice
    case None => None
    case Some(v) =>
      if EndsWith(v, ".json") then Some(v)
      else (EndsWithAppended(v, ".json"); Some(v + ".json"))
  }

  /** Normalizing an already normalized name changes nothing. */
  lemma NormalizeIdempotent(voice: Option<string>)
    ensures NormalizeVoiceStyle(NormalizeVoiceStyle(voice)) == NormalizeVoiceStyle(voice)
  {
  }

  /** Python's truthiness of an optional string: present and not empty. */
  predicate IsSet(value: Option<string>) {
    value.Some? && value.value != ""
  }

  /** `value or fallback` */
  function OrElse(value: Option<string>, fallback: string): (r: string)
    ensures IsSet(value) ==> r == value.value
    ensures !IsSet(value) ==> r == fallback
  {
    if IsSet(value) then value.value else fallback
  }

  /** The `voice_style` entry of a request: present only for a truthy voice, and then normalized. */
  function VoiceField(voice: Option<string>): (r: Option<string>)
    ensures r.Some? <==> IsSet(voice)
    ensures r.Some? ==> r == NormalizeVoiceStyle(voice) && EndsWith(r.value, ".json")
  {
    if IsSet(voice) then NormalizeVoiceStyle(voice) else None
  }

  /** The JSON body of `synthesize`: each argument left out (`None`) takes its configured default. */
  function SynthesizePayload(config: Config, text: string, voice: Option<string>, totalStep: Option<int>,
                             speed: Option<real>): (r: SynthRequest)
    ensures r.text == text
    ensures totalStep.Some? ==> r.totalStep == totalStep.value
    ensures totalStep.None? ==> r.totalStep == config.defaultQuality
    ensures speed.Some? ==> r.speed == speed.value
    ensures speed.None? ==> r.speed == config.defaultSpeed
    ensures voice.Some? ==> r.voiceStyle == VoiceField(voice)
    ensures voice.None? ==> r.voiceStyle == VoiceField(Some(config.defaultVoice))
    ensures voice.Some? ==> (r.voiceStyle.Some? <==> voice.value != "")
    ensures r.voiceStyle.Some? ==> EndsWith(r.voiceStyle.value, ".json")
  {
    var voice := if voice.None? then config.defaultVoice else voice.value;
    var totalStep := if totalStep.None? then config.defaultQuality else totalStep.value;
    var speed := if speed.None? then config.defaultSpeed else speed.value;
    SynthRequest(text, totalStep, speed, VoiceField(Some(voice)))
  }

  /** Arguments that are all given make the payload independent of the configuration, zero included. */
  lemma PayloadIgnoresConfigForGivenArguments(c1: Config, c2: Config, text: string, voice: string, totalStep: int,
                                              speed: real)
    ensures SynthesizePayload(c1, text, Some(voice), Some(totalStep), Some(speed))
            == SynthesizePayload(c2, text, Some(voice), Some(totalStep), Some(speed))
  {
  }

  /** Leaving an argument out is the same as passing its configured default. */
  lemma PayloadDefaultsOnlyWhenOmitted(config: Config, text: string)
    ensures SynthesizePayload(config, text, None, None, None)
            == SynthesizePayload(config, text, Some(config.defaultVoice), Some(config.defaultQuality),
                                 Some(config.defaultSpeed))
  {
  }

  /**
   * `main` normalizes the voice before `synthesize` normalizes it again: the
   * payload is the same as for the voice as typed, except that an empty voice
   * becomes ".json" instead of being left out.
   */
  lemma NormalizingTwiceIsHarmless(config: Config, text: string, voice: string, totalStep: Option<int>,
                                   speed: Option<real>)
    ensures voice != "" ==>
              SynthesizePayload(config, text, NormalizeVoiceStyle(Some(voice)), totalStep, speed)
              == SynthesizePayload(config, text, Some(voice), totalStep, speed)
    ensures voice == "" ==>
              SynthesizePayload(config, text, NormalizeVoiceStyle(Some(voice)), totalStep, speed).voiceStyle
              == Some(".json")
              && SynthesizePayload(config, text, Some(voice), totalStep, speed).voiceStyle.None?
  {
    NormalizeIdempotent(Some(voice));
  }

  /** `voice_styles or [None] * len(texts)` */
  function BatchVoices(texts: seq<string>, voiceStyles: Option<seq<Option<string>>>): (r: seq<Option<string>>)
    ensures voiceStyles.None? ==> |r| == |texts| && forall i :: 0 <= i < |r| ==> r[i].None?
    ensures voiceStyles.Some? ==> r == voiceStyles.value
  {
    if voiceStyles.None? then seq(|texts|, _ => None) else voiceStyles.value
  }

  /** The `requests` list of a batch: item `i` is built from `texts[i]` and `voices[i]`, with one shared step count and speed. */
  function BatchRequests(texts: seq<string>, voices: seq<Option<string>>, totalStep: int, speed: real)
    : (r: seq<SynthRequest>)
    requires |texts| == |voices|
    ensures |r| == |texts|
    ensures forall i :: 0 <= i < |r| ==> r[i] == SynthRequest(texts[i], totalStep, speed, VoiceField(voices[i]))
  {
    seq(|texts|, i requires 0 <= i < |texts| => SynthRequest(texts[i], totalStep, speed, VoiceField(voices[i])))
  }

  /**
   * A batch item with a voice is the request `synthesize` would send for that
   * text; an item without one carries no voice at all, where `synthesize` would
   * have used the default voice.
   */
  lemma BatchItemMatchesSingleRequest(config: Config, texts: seq<string>, voices: seq<Option<string>>,
                                      totalStep: int, speed: real, i: nat)
    requires |texts| == |voices| && i < |texts|
    ensures voices[i].Some? ==>
              BatchRequests(texts, voices, totalStep, speed)[i]
              == SynthesizePayload(config, texts[i], voices[i], Some(totalStep), Some(speed))
    ensures voices[i].None? ==> BatchRequests(texts, voices, totalStep, speed)[i].voiceStyle.None?
  {
  }

  /** `Path(save_dir) / f"output_{i+1}.wav"` */
  function OutputPath(dir: string, i: nat): string {
    JoinPath(dir, "output_" + NatToString(i + 1) + ".wav")
  }

  /** The file name of item `i` has no directory separator. */
  lemma OutputNameIsPlain(i: nat)
    ensures Lacks("output_" + NatToString(i + 1), '/')
  {
    var digits := NatToString(i + 1);
    var name := "output_" + digits;
    forall k | 0 <= k < |name| ensures name[k] != '/' {
      if k >= 7 {
        assert name[k] == digits[k - 7];
        assert IsDigit(digits[k - 7]);
      }
    }
  }

  /** Every batch output is a `.wav` file, so it is written without pydub. */
  lemma OutputPathIsWav(dir: string, i: nat)
    ensures IsWav(OutputPath(dir, i))
  {
    OutputNameIsPlain(i);
    WavOfJoin(dir, "output_" + NatToString(i + 1));
  }

  /** Different items are saved under different names, so no item overwrites another. */
  lemma OutputPathsDistinct(dir: string, i: nat, j: nat)
    requires i != j
    ensures OutputPath(dir, i) != OutputPath(dir, j)
  {
    var a := "output_" + NatToString(i + 1) + ".wav";
    var b := "output_" + NatToString(j + 1) + ".wav";
    if OutputPath(dir, i) == OutputPath(dir, j) {
      JoinPathInjective(dir, a, b);
      Between("output_", NatToString(i + 1), ".wav");
      Between("output_", NatToString(j + 1), ".wav");
      NatToStringInjective(i + 1, j + 1);
      assert false;
    }
  }

  /** The output files of a batch of `n` results, in result order. */
  function OutputPaths(dir: string, n: nat): (r: seq<string>)
    ensures |r| == n && forall k :: 0 <= k < n ==> r[k] == OutputPath(dir, k)
  {
    seq(n, k requires 0 <= k < n => OutputPath(dir, k))
  }

  /** The output files of a batch are `.wav` files, each under its own name. */
  lemma OutputPathsDistinctWav(dir: string, n: nat)
    ensures var paths := OutputPaths(dir, n);
            && (forall k :: 0 <= k < n ==> IsWav(paths[k]))
            && (forall j, k :: 0 <= j < k < n ==> paths[j] != paths[k])
  {
    var paths := OutputPaths(dir, n);
    forall k | 0 <= k < n ensures IsWav(paths[k]) {
      OutputPathIsWav(dir, k);
    }
    forall j, k | 0 <= j < k < n ensures paths[j] != paths[k] {
      OutputPathsDistinct(dir, j, k);
    }
  }

  /** The middle of a concatenation of three parts is recovered by cutting off the other two. */
  lemma Between(prefix: string, middle: string, suffix: string)
    ensures (prefix + middle + suffix)[|prefix|..|prefix + middle + suffix| - |suffix|] == middle
  {
    var whole := prefix + middle + suffix;
    assert whole == prefix + (middle + suffix);
    assert (middle + suffix)[..|middle|] == middle;
  }

  /** Saving audio to a target path: the outcome, and the files afterwards. */
  type Saver = (map<string, Bytes>, Bytes, string) -> (Outcome<Exception>, map<string, Bytes>)

  /** `convert_audio_format` on a file system with the given read-only paths and codec. */
  function ClientSaver(readOnly: set<string>, codec: Codec): Saver {
    (files, wav, target) => ConvertEffect(files, readOnly, codec, wav, target)
  }

  /** A save that changes no file but its target. */
  ghost predicate SavesOnlyTarget(save: Saver) {
    forall files, wav, target :: save(files, wav, target).1 - {target} == files - {target}
  }

  /** A save that, when it succeeds, leaves the audio itself at `target`. */
  ghost predicate SavesAsIs(save: Saver, target: string) {
    forall files, wav :: save(files, wav, target).0.Pass? ==>
      target in save(files, wav, target).1 && save(files, wav, target).1[target] == wav
  }

  lemma ClientSaverSavesOnlyTarget(readOnly: set<string>, codec: Codec)
    ensures SavesOnlyTarget(ClientSaver(readOnly, codec))
  {
    forall files, wav, target
      ensures ClientSaver(readOnly, codec)(files, wav, target).1 - {target} == files - {target}
    {
      var after := ConvertEffect(files, readOnly, codec, wav, target).1;
      assert after - {target} == files - {target};
    }
  }

  lemma ClientSaverSavesWav(readOnly: set<string>, codec: Codec, target: string)
    requires IsWav(target)
    ensures SavesAsIs(ClientSaver(readOnly, codec), target)
  {
    forall files, wav | ConvertEffect(files, readOnly, codec, wav, target).0.Pass?
      ensures target in ConvertEffect(files, readOnly, codec, wav, target).1
      ensures ConvertEffect(files, readOnly, codec, wav, target).1[target] == wav
    {
      ConvertWavIsIdentity(files, readOnly, codec, wav, target);
    }
  }

  /** Where a batch saves its results: one output file per result with a save directory, none without. */
  function Targets(saveDir: Option<string>, n: nat): (r: Option<seq<string>>)
    ensures r.Some? <==> IsSet(saveDir)
    ensures r.Some? ==> |r.value| == n && forall k :: 0 <= k < n ==> r.value[k] == OutputPath(saveDir.value, k)
  {
    if IsSet(saveDir) then Some(OutputPaths(saveDir.value, n)) else None
  }

  /**
   * The rest of `batch_synthesize`'s loop from item `i` on, with `decoded` the
   * audio of the items before it: each item is decoded and, when there are
   * targets, saved to its own; the first failure ends the batch.
   */
  function FanOutFrom(items: seq<Item>, decode: string -> Result<Bytes, string>, save: Saver,
                      targets: Option<seq<string>>, i: nat, decoded: seq<Bytes>, files: map<string, Bytes>)
    : (r: (Result<seq<Bytes>, Exception>, map<string, Bytes>))
    requires i <= |items| && (targets.Some? ==> |targets.value| == |items|)
    decreases |items| - i
  {
    if i == |items| then (Success(decoded), files)
    else
      match DecodeAudio(items[i].audioBase64, decode)
      case Failure(e) => (Failure(e), files)
      case Success(audio) =>
        var (outcome, saved) := if targets.Some? then save(files, audio, targets.value[i]) else (Pass, files);
        if outcome.Fail? then (Failure(outcome.error), saved)
        else FanOutFrom(items, decode, save, targets, i + 1, decoded + [audio], saved)
  }

  /** One step of `FanOutFrom` on an item whose audio decodes. */
  lemma FanOutStep(items: seq<Item>, decode: string -> Result<Bytes, string>, save: Saver,
                   targets: Option<seq<string>>, i: nat, decoded: seq<Bytes>, files: map<string, Bytes>, audio: Bytes,
                   outcome: Outcome<Exception>, saved: map<string, Bytes>)
    requires i < |items| && (targets.Some? ==> |targets.value| == |items|)
    requires DecodeAudio(items[i].audioBase64, decode) == Success(audio)
    requires (outcome, saved) == if targets.Some? then save(files, audio, targets.value[i]) else (Pass, files)
    ensures FanOutFrom(items, decode, save, targets, i, decoded, files)
            == if outcome.Fail? then (Failure(outcome.error), saved)
               else FanOutFrom(items, decode, save, targets, i + 1, decoded + [audio], saved)
  {
  }

  /** Two file maps that differ at most at `target` agree on every other path. */
  lemma AgreeBesides(before: map<string, Bytes>, after: map<string, Bytes>, target: string, p: string)
    requires after - {target} == before - {target} && p != target
    ensures (p in after <==> p in before) && (p in before ==> after[p] == before[p])
  {
    assert (p in after <==> p in after - {target}) && (p in before <==> p in before - {target});
    if p in before {
      assert after[p] == (after - {target})[p];
    }
  }

  /** A successful batch returns one decoded audio per result, in the order of the results. */
  lemma {:induction false} FanOutAligned(items: seq<Item>, decode: string -> Result<Bytes, string>, save: Saver,
                                         targets: Option<seq<string>>, i: nat, decoded: seq<Bytes>,
                                         files: map<string, Bytes>)
    requires i <= |items| && |decoded| == i && (targets.Some? ==> |targets.value| == |items|)
    ensures var r := FanOutFrom(items, decode, save, targets, i, decoded, files).0;
            r.Success? ==>
              && |r.value| == |items|
              && r.value[..i] == decoded
              && forall k :: i <= k < |items| ==> DecodeAudio(items[k].audioBase64, decode) == Success(r.value[k])
    decreases |items| - i
  {
    if i < |items| {
      var d := DecodeAudio(items[i].audioBase64, decode);
      if d.Success? {
        var next := decoded + [d.value];
        var (outcome, saved) := if targets.Some? then save(files, d.value, targets.value[i]) else (Pass, files);
        FanOutStep(items, decode, save, targets, i, decoded, files, d.value, outcome, saved);
        if outcome.Pass? {
          FanOutAligned(items, decode, save, targets, i + 1, next, saved);
          var r := FanOutFrom(items, decode, save, targets, i, decoded, files).0;
          if r.Success? {
            assert r.value[..i + 1] == next;
            assert r.value[..i] == next[..i] == decoded;
            assert r.value[i] == next[i] == d.value;
          }
        }
      }
    }
  }

  /** The index of the first item from `i` on whose audio cannot be decoded, or `|items|`. */
  function FirstUndecodable(items: seq<Item>, decode: string -> Result<Bytes, string>, i: nat): (k: nat)
    requires i <= |items|
    ensures i <= k <= |items|
    ensures forall j :: i <= j < k ==> DecodeAudio(items[j].audioBase64, decode).Success?
    ensures k < |items| ==> DecodeAudio(items[k].audioBase64, decode).Failure?
    decreases |items| - i
  {
    if i == |items| || DecodeAudio(items[i].audioBase64, decode).Failure? then i
    else FirstUndecodable(items, decode, i + 1)
  }

  /**
   * Without a save directory no file is touched, and the batch fails exactly
   * when some item cannot be decoded, with the error of the first such item.
   */
  lemma {:induction false} FanOutFailsAtFirstUndecodable(items: seq<Item>, decode: string -> Result<Bytes, string>,
                                                         save: Saver, i: nat, decoded: seq<Bytes>,
                                                         files: map<string, Bytes>)
    requires i <= |items|
    ensures var r := FanOutFrom(items, decode, save, None, i, decoded, files);
            var k := FirstUndecodable(items, decode, i);
            && r.1 == files
            && (r.0.Success? <==> k == |items|)
            && (k < |items| ==> r.0 == Failure(DecodeAudio(items[k].audioBase64, decode).error))
    decreases |items| - i
  {
    if i < |items| {
      var d := DecodeAudio(items[i].audioBase64, decode);
      if d.Success? {
        FanOutFailsAtFirstUndecodable(items, decode, save, i + 1, decoded + [d.value], files);
      }
    }
  }

  /**
   * With targets that are pairwise different and a save that stores audio as
   * is and changes nothing else, a successful batch leaves in each target
   * exactly the audio it returns for that item, and changes no other file.
   */
  lemma {:induction false} FanOutSavesEachItem(items: seq<Item>, decode: string -> Result<Bytes, string>, save: Saver,
                                               paths: seq<string>, i: nat, decoded: seq<Bytes>,
                                               files: map<string, Bytes>)
    requires i <= |items| && |decoded| == i && |paths| == |items|
    requires forall j, k :: i <= j < k < |items| ==> paths[j] != paths[k]
    requires SavesOnlyTarget(save) && forall k :: i <= k < |items| ==> SavesAsIs(save, paths[k])
    ensures var r := FanOutFrom(items, decode, save, Some(paths), i, decoded, files);
            r.0.Success? ==>
              && |r.0.value| == |items|
              && forall k :: i <= k < |items| ==> paths[k] in r.1 && r.1[paths[k]] == r.0.value[k]
    ensures var r := FanOutFrom(items, decode, save, Some(paths), i, decoded, files);
            forall p :: p !in paths[i..] ==> (p in r.1 <==> p in files) && (p in files ==> r.1[p] == files[p])
    decreases |items| - i
  {
    if i < |items| {
      var d := DecodeAudio(items[i].audioBase64, decode);
      if d.Success? {
        var path := paths[i];
        var (outcome, saved) := save(files, d.value, path);
        FanOutStep(items, decode, save, Some(paths), i, decoded, files, d.value, outcome, saved);
        var r := FanOutFrom(items, decode, save, Some(paths), i, decoded, files);
        var next := decoded + [d.value];
        assert saved - {path} == files - {path};
        assert paths[i..] == [path] + paths[i + 1..];
        if outcome.Pass? {
          FanOutSavesEachItem(items, decode, save, paths, i + 1, next, saved);
          FanOutAligned(items, decode, save, Some(paths), i + 1, next, saved);
          if r.0.Success? {
            assert path !in paths[i + 1..];
            assert r.0.value[..i + 1][i] == d.value;
          }
        }
        forall p | p !in paths[i..] ensures (p in r.1 <==> p in files) && (p in files ==> r.1[p] == files[p]) {
          AgreeBesides(files, saved, path, p);
        }
      }
    }
  }

  /** Path `p` is present in `after` exactly when it is in `before`, with the same content. */
  predicate SameAt(before: map<string, Bytes>, after: map<string, Bytes>, p: string) {
    (p in after <==> p in before) && (p in before ==> after[p] == before[p])
  }

  /**
   * Item `k` fails with `e` when the files are `reached`: its audio does not
   * decode and the files stay `reached`, or saving it to its target raises
   * `e` and leaves `after`.
   */
  predicate FailedAt(items: seq<Item>, decode: string -> Result<Bytes, string>, save: Saver, paths: seq<string>,
                     k: nat, e: Exception, reached: map<string, Bytes>, after: map<string, Bytes>)
    requires k < |items| == |paths|
  {
    match DecodeAudio(items[k].audioBase64, decode)
    case Failure(error) => e == error && after == reached
    case Success(audio) => save(reached, audio, paths[k]) == (Fail(e), after)
  }

  /**
   * A batch started at item `i` on `before` stops at item `k` with `e`: the
   * items from `i` up to `k` decode and save without error, item `k` then
   * fails with `e` on the files they leave, giving `after`, and the output
   * files of the items after `k` are in `after` as they were in `before`.
   */
  predicate StopsAt(items: seq<Item>, decode: string -> Result<Bytes, string>, save: Saver, paths: seq<string>,
                    i: nat, decoded: seq<Bytes>, k: nat, e: Exception, before: map<string, Bytes>,
                    after: map<string, Bytes>)
    requires |items| == |paths|
  {
    && i <= k < |items|
    && (forall j :: k < j < |items| ==> SameAt(before, after, paths[j]))
    && var run := FanOutFrom(items[..k], decode, save, Some(paths[..k]), i, decoded, before);
       run.0.Success? && FailedAt(items, decode, save, paths, k, e, run.1, after)
  }

  /**
   * With targets that are pairwise different and a save that changes nothing
   * but its target, a failed batch stops at the first item that fails, with
   * that item's error, and the items after it are not processed.
   */
  lemma {:induction false} FanOutStopsAtFirstFailure(items: seq<Item>, decode: string -> Result<Bytes, string>,
                                                     save: Saver, paths: seq<string>, i: nat, decoded: seq<Bytes>,
                                                     files: map<string, Bytes>)
    requires i <= |items| && |paths| == |items|
    requires forall j, k :: i <= j < k < |items| ==> paths[j] != paths[k]
    requires SavesOnlyTarget(save)
    ensures var r := FanOutFrom(items, decode, save, Some(paths), i, decoded, files);
            r.0.Failure? ==> exists k :: StopsAt(items, decode, save, paths, i, decoded, k, r.0.error, files, r.1)
    decreases |items| - i
  {
    if i < |items| {
      var r := FanOutFrom(items, decode, save, Some(paths), i, decoded, files);
      var d := DecodeAudio(items[i].audioBase64, decode);
      if d.Failure? {
        StopAtItem(items, decode, save, paths, i, decoded, r.0.error, files, r.1);
      } else {
        var (outcome, saved) := save(files, d.value, paths[i]);
        FanOutStep(items, decode, save, Some(paths), i, decoded, files, d.value, outcome, saved);
        assert saved - {paths[i]} == files - {paths[i]};
        if outcome.Fail? {
          StopAtItem(items, decode, save, paths, i, decoded, outcome.error, files, saved);
        } else if r.0.Failure? {
          FanOutStopsAtFirstFailure(items, decode, save, paths, i + 1, decoded + [d.value], saved);
          var k :| StopsAt(items, decode, save, paths, i + 1, decoded + [d.value], k, r.0.error, saved, r.1);
          StopLater(items, decode, save, paths, i, decoded, d.value, k, r.0.error, files, saved, r.1);
        }
      }
    }
  }

  /** An item that fails on the files the batch started with, changing only its target, stops the batch there. */
  lemma StopAtItem(items: seq<Item>, decode: string -> Result<Bytes, string>, save: Saver, paths: seq<string>,
                   i: nat, decoded: seq<Bytes>, e: Exception, files: map<string, Bytes>, after: map<string, Bytes>)
    requires i < |items| == |paths| && forall j :: i < j < |items| ==> paths[j] != paths[i]
    requires FailedAt(items, decode, save, paths, i, e, files, after)
    requires after - {paths[i]} == files - {paths[i]}
    ensures StopsAt(items, decode, save, paths, i, decoded, i, e, files, after)
  {
    forall j | i < j < |items| ensures SameAt(files, after, paths[j]) {
      AgreeBesides(files, after, paths[i], paths[j]);
    }
  }

  /** A stop after item `i`, which saved without error and changed only its own target, is a stop of the batch from `i`. */
  lemma StopLater(items: seq<Item>, decode: string -> Result<Bytes, string>, save: Saver, paths: seq<string>,
                  i: nat, decoded: seq<Bytes>, audio: Bytes, k: nat, e: Exception, files: map<string, Bytes>,
                  saved: map<string, Bytes>, after: map<string, Bytes>)
    requires i < |items| == |paths| && forall j :: i < j < |items| ==> paths[j] != paths[i]
    requires DecodeAudio(items[i].audioBase64, decode) == Success(audio)
    requires save(files, audio, paths[i]) == (Pass, saved) && saved - {paths[i]} == files - {paths[i]}
    requires StopsAt(items, decode, save, paths, i + 1, decoded + [audio], k, e, saved, after)
    ensures StopsAt(items, decode, save, paths, i, decoded, k, e, files, after)
  {
    var prefix, targets := items[..k], paths[..k];
    assert prefix[i] == items[i] && targets[i] == paths[i];
    FanOutStep(prefix, decode, save, Some(targets), i, decoded, files, audio, Pass, saved);
    forall j | k < j < |items| ensures SameAt(files, after, paths[j]) {
      AgreeBesides(files, saved, paths[i], paths[j]);
    }
  }

  /** With a save directory, each output file of a successful batch holds the audio returned for its item. */
  lemma BatchSavesEachItem(files: map<string, Bytes>, readOnly: set<string>, codec: Codec,
                           decode: string -> Result<Bytes, string>, answer: Exchange, saveDir: Option<string>)
    requires IsSet(saveDir)
    ensures var r := BatchEffect(files, readOnly, codec, decode, answer, saveDir);
            r.0.Success? ==>
              forall k :: 0 <= k < |r.0.value| ==>
                OutputPath(saveDir.value, k) in r.1 && r.1[OutputPath(saveDir.value, k)] == r.0.value[k]
  {
    var reply := Receive(answer);
    if reply.Success? && reply.value.results.Some? {
      var items := reply.value.results.value;
      var paths := OutputPaths(saveDir.value, |items|);
      OutputPathsDistinctWav(saveDir.value, |items|);
      ClientSaverSavesOnlyTarget(readOnly, codec);
      forall k | 0 <= k < |items| ensures SavesAsIs(ClientSaver(readOnly, codec), paths[k]) {
        ClientSaverSavesWav(readOnly, codec, paths[k]);
      }
      FanOutSavesEachItem(items, decode, ClientSaver(readOnly, codec), paths, 0, [], files);
    }
  }

  /**
   * With a save directory, a batch whose results arrived but that fails
   * stops at the first result that fails, with its decoding or saving error,
   * and the output files of the later results are left as they were.
   */
  lemma BatchStopsAtFirstFailure(files: map<string, Bytes>, readOnly: set<string>, codec: Codec,
                                 decode: string -> Result<Bytes, string>, answer: Exchange, saveDir: Option<string>)
    requires IsSet(saveDir)
    ensures var r := BatchEffect(files, readOnly, codec, decode, answer, saveDir);
            r.0.Failure? && Receive(answer).Success? && Receive(answer).value.results.Some? ==>
              var items := Receive(answer).value.results.value;
              exists k :: StopsAt(items, decode, ClientSaver(readOnly, codec), OutputPaths(saveDir.value, |items|), 0, [],
                                  k, r.0.error, files, r.1)
  {
    var reply := Receive(answer);
    if reply.Success? && reply.value.results.Some? {
      var items := reply.value.results.value;
      OutputPathsDistinctWav(saveDir.value, |items|);
      ClientSaverSavesOnlyTarget(readOnly, codec);
      FanOutStopsAtFirstFailure(items, decode, ClientSaver(readOnly, codec), OutputPaths(saveDir.value, |items|), 0, [],
                                files);
    }
  }

  /** Without a save directory a batch touches no file, and fails exactly when some result cannot be decoded. */
  lemma BatchWithoutDirWritesNothing(files: map<string, Bytes>, readOnly: set<string>, codec: Codec,
                                     decode: string -> Result<Bytes, string>, answer: Exchange, saveDir: Option<string>)
    requires !IsSet(saveDir)
    ensures var r := BatchEffect(files, readOnly, codec, decode, answer, saveDir);
            && r.1 == files
            && (Receive(answer).Success? && Receive(answer).value.results.Some? ==>
                  var items := Receive(answer).value.results.value;
                  (r.0.Success? <==> FirstUndecodable(items, decode, 0) == |items|))
  {
    var reply := Receive(answer);
    if reply.Success? && reply.value.results.Some? {
      FanOutFailsAtFirstUndecodable(reply.value.results.value, decode, ClientSaver(readOnly, codec), 0, [], files);
    }
  }

  /** Everything `synthesize` does after its request is sent: check the answer, decode, and save if asked. */
  function SynthesizeEffect(files: map<string, Bytes>, readOnly: set<string>, codec: Codec,
                            decode: string -> Result<Bytes, string>, answer: Exchange, savePath: Option<string>)
    : (r: (Result<Bytes, Exception>, map<string, Bytes>))
  {
    match Receive(answer)
    case Failure(e) => (Failure(e), files)
    case Success(reply) =>
      match DecodeAudio(reply.audioBase64, decode)
      case Failure(e) => (Failure(e), files)
      case Success(audio) =>
        if IsSet(savePath) then
          var (outcome, saved) := ConvertEffect(files, readOnly, codec, audio, savePath.value);
          if outcome.Fail? then (Failure(outcome.error), saved) else (Success(audio), saved)
        else (Success(audio), files)
  }

  /**
   * `synthesize` returns the decoded audio of a successful answer; it changes
   * no file but the save path, and a `.wav` save path then holds exactly the
   * returned bytes. An HTTP or decoding failure changes no file.
   */
  lemma SynthesizeReturnsWhatItSaves(files: map<string, Bytes>, readOnly: set<string>, codec: Codec,
                                     decode: string -> Result<Bytes, string>, answer: Exchange, savePath: Option<string>)
    ensures var r := SynthesizeEffect(files, readOnly, codec, decode, answer, savePath);
            && (r.0.Success? ==> Receive(answer).Success?
                                  && DecodeAudio(Receive(answer).value.audioBase64, decode) == Success(r.0.value))
            && (Receive(answer).Failure? ==> r == (Failure(Receive(answer).error), files))
            && (!IsSet(savePath) ==> r.1 == files)
            && (forall p :: (!IsSet(savePath) || p != savePath.value) ==>
                  (p in r.1 <==> p in files) && (p in files ==> r.1[p] == files[p]))
            && (r.0.Success? && IsSet(savePath) && IsWav(savePath.value) ==>
                  savePath.value in r.1 && r.1[savePath.value] == r.0.value)
  {
  }

  /** A save path that already exists still exists after `synthesize`, whatever the outcome. */
  lemma SavePathRemains(files: map<string, Bytes>, readOnly: set<string>, codec: Codec,
                        decode: string -> Result<Bytes, string>, answer: Exchange, path: string)
    requires path in files
    ensures path in SynthesizeEffect(files, readOnly, codec, decode, answer, Some(path)).1
  {
  }

  /** Everything `batch_synthesize` does after its request is sent. */
  function BatchEffect(files: map<string, Bytes>, readOnly: set<string>, codec: Codec,
                       decode: string -> Result<Bytes, string>, answer: Exchange, saveDir: Option<string>)
    : (r: (Result<seq<Bytes>, Exception>, map<string, Bytes>))
  {
    match Receive(answer)
    case Failure(e) => (Failure(e), files)
    case Success(reply) =>
      if reply.results.None? then (Failure(KeyError("results")), files)
      else FanOutFrom(reply.results.value, decode, ClientSaver(readOnly, codec),
                      Targets(saveDir, |reply.results.value|), 0, [], files)
  }

  /** The message of the length check in `batch_synthesize`. */
  const LengthMismatch := "Length of texts and voice_styles must match"

  /** `SupertonicClient`: the base URL without trailing slashes and one HTTP session. */
  class SupertonicClient {
    const config: Config
    const baseUrl: string
    const session: Session

    constructor (config: Config, baseUrl: Option<string>, server: HttpRequest -> Exchange)
      ensures this.config == config
      ensures this.baseUrl == RStrip(OrElse(baseUrl, config.baseUrl), '/')
      ensures this.baseUrl == [] || this.baseUrl[|this.baseUrl| - 1] != '/'
      ensures fresh(session) && session.server == server && session.timeout == Some(config.timeout)
      ensures !session.closed && session.sent == []
    {
      this.config := config;
      this.baseUrl := RStrip(OrElse(baseUrl, config.baseUrl), '/');
      var session := new Session(server);
      session.timeout := Some(config.timeout);
      this.session := session;
    }

    method Health() returns (r: Result<Reply, Exception>)
      modifies session
      ensures session.sent == old(session.sent) + [Get(baseUrl + "/health")]
      ensures r == Receive(session.server(Get(baseUrl + "/health")))
    {
      r := session.Send(Get(baseUrl + "/health"));
    }

    /** `synthesize`: one POST to `/synthesize`, then decoding and the optional save. */
    method Synthesize(text: string, voiceStyle: Option<string>, totalStep: Option<int>, speed: Option<real>,
                      savePath: Option<string>, fs: FileSystem, codec: Codec, decode: string -> Result<Bytes, string>)
      returns (r: Result<Bytes, Exception>)
      modifies session, fs
      ensures var request := Post(baseUrl + "/synthesize",
                                  SynthesizeBody(SynthesizePayload(config, text, voiceStyle, totalStep, speed)));
              && session.sent == old(session.sent) + [request]
              && (r, fs.files) == SynthesizeEffect(old(fs.files), fs.readOnly, codec, decode, session.server(request), savePath)
    {
      var payload := SynthesizePayload(config, text, voiceStyle, totalStep, speed);
      var response := session.Send(Post(baseUrl + "/synthesize", SynthesizeBody(payload)));
      if response.Failure? {
        return Failure(response.error);
      }
      var audio := DecodeAudio(response.value.audioBase64, decode);
      if audio.Failure? {
        return Failure(audio.error);
      }
      if IsSet(savePath) {
        var outcome := ConvertAudioFormat(fs, codec, audio.value, savePath.value);
        if outcome.Fail? {
          return Failure(outcome.error);
        }
      }
      r := Success(audio.value);
    }

    /**
     * `batch_synthesize`: a length mismatch is a `ValueError` before anything
     * is sent; otherwise one POST to `/batch` and the fan-out over its results.
     */
    method BatchSynthesize(texts: seq<string>, voiceStyles: Option<seq<Option<string>>>, totalStep: Option<int>,
                           speed: Option<real>, saveDir: Option<string>, fs: FileSystem, codec: Codec,
                           decode: string -> Result<Bytes, string>)
      returns (r: Result<seq<Bytes>, Exception>)
      modifies session, fs
      ensures var voices := BatchVoices(texts, voiceStyles);
              |voices| != |texts| ==>
                r == Failure(ValueError(LengthMismatch)) && session.sent == old(session.sent)
                && fs.files == old(fs.files)
      ensures var voices := BatchVoices(texts, voiceStyles);
              var totalStep := if totalStep.None? then config.defaultQuality else totalStep.value;
              var speed := if speed.None? then config.defaultSpeed else speed.value;
              |voices| == |texts| ==>
                var request := Post(baseUrl + "/batch", BatchBody(BatchRequests(texts, voices, totalStep, speed)));
                && session.sent == old(session.sent) + [request]
                && (r, fs.files) == BatchEffect(old(fs.files), fs.readOnly, codec, decode, session.server(request), saveDir)
    {
      var steps := if totalStep.None? then config.defaultQuality else totalStep.value;
      var factor := if speed.None? then config.defaultSpeed else speed.value;
      var voices := BatchVoices(texts, voiceStyles);
      if |texts| != |voices| {
        return Failure(ValueError(LengthMismatch));
      }
      var requests: seq<SynthRequest> := [];
      var i := 0;
      while i < |texts|
        invariant 0 <= i <= |texts|
        invariant requests == BatchRequests(texts, voices, steps, factor)[..i]
      {
        requests := requests + [SynthRequest(texts[i], steps, factor, VoiceField(voices[i]))];
        i := i + 1;
      }
      assert requests == BatchRequests(texts, voices, steps, factor);
      var response := session.Send(Post(baseUrl + "/batch", BatchBody(requests)));
      if response.Failure? {
        return Failure(response.error);
      }
      if response.value.results.None? {
        return Failure(KeyError("results"));
      }
      r := FanOut(response.value.results.value, saveDir, fs, codec, decode);
    }

    /** `if save_dir: convert_audio_format(audio, output_{i+1}.wav)` */
    method SaveResult(audio: Bytes, saveDir: Option<string>, i: nat, fs: FileSystem, codec: Codec)
      returns (r: Outcome<Exception>)
      modifies fs
      ensures (r, fs.files) == if IsSet(saveDir)
                               then ClientSaver(fs.readOnly, codec)(old(fs.files), audio, OutputPath(saveDir.value, i))
                               else (Pass, old(fs.files))
    {
      r := Pass;
      if IsSet(saveDir) {
        r := ConvertAudioFormat(fs, codec, audio, OutputPath(saveDir.value, i));
      }
    }

    /** The loop of `batch_synthesize` over the results of the reply. */
    method FanOut(items: seq<Item>, saveDir: Option<string>, fs: FileSystem, codec: Codec,
                  decode: string -> Result<Bytes, string>)
      returns (r: Result<seq<Bytes>, Exception>)
      modifies fs
      ensures (r, fs.files)
              == FanOutFrom(items, decode, ClientSaver(fs.readOnly, codec), Targets(saveDir, |items|), 0, [], old(fs.files))
    {
      ghost var save := ClientSaver(fs.readOnly, codec);
      ghost var targets := Targets(saveDir, |items|);
      var audioList: seq<Bytes> := [];
      var i := 0;
      while i < |items|
        invariant 0 <= i <= |items|
        invariant FanOutFrom(items, decode, save, targets, 0, [], old(fs.files))
                  == FanOutFrom(items, decode, save, targets, i, audioList, fs.files)
      {
        var audio := DecodeAudio(items[i].audioBase64, decode);
        if audio.Failure? {
          return Failure(audio.error);
        }
        ghost var before := fs.files;
        var outcome := SaveResult(audio.value, saveDir, i, fs, codec);
        FanOutStep(items, decode, save, targets, i, audioList, before, audio.value, outcome, fs.files);
        if outcome.Fail? {
          return Failure(outcome.error);
        }
        audioList := audioList + [audio.value];
        i := i + 1;
      }
      r := Success(audioList);
    }

    method Close()
      modifies session
      ensures session.closed && session.sent == old(session.sent)
    {
      session.Close();
    }
  }

  /**
   * `synthesize_text`: a client used for one synthesis saved to `savePath`,
   * then closed by its `with` block.
   */
  method SynthesizeText(config: Config, text: string, savePath: string, baseUrl: Option<string>,
                        voiceStyle: Option<string>, totalStep: Option<int>, speed: Option<real>,
                        server: HttpRequest -> Exchange, fs: FileSystem, codec: Codec,
                        decode: string -> Result<Bytes, string>)
    returns (r: Result<Bytes, Exception>, ghost sent: seq<HttpRequest>)
    modifies fs
    ensures var request := Post(RStrip(OrElse(baseUrl, config.baseUrl), '/') + "/synthesize",
                                SynthesizeBody(SynthesizePayload(config, text, voiceStyle, totalStep, speed)));
            && sent == [request]
            && (r, fs.files) == SynthesizeEffect(old(fs.files), fs.readOnly, codec, decode, server(request), Some(savePath))
  {
    var client := new SupertonicClient(config, baseUrl, server);
    r := client.Synthesize(text, voiceStyle, totalStep, speed, Some(savePath), fs, codec, decode);
    client.Close();
    sent := client.session.sent;
  }
}
