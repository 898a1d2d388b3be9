/**
 * The command-line entry point of the client: where the audio goes, which
 * arguments are rejected, and what one run does to the server and the files,
 * with its exit status (0 success, 1 an exception, 2 a usage error).
 */
module Cli {
  import opened Wrappers
  import opened Text
  import opened Io
  import opened Settings
  import opened Audio
  import opened Client

  /** The parsed command line; argparse has already filled in the configured defaults. */
  datatype CliArgs = CliArgs(
    text: Option<string>,
    output: Option<string>,
    voice: string,
    quality: int,
    speed: real,
    url: string,
    health: bool,
    play: bool)

  /** Where the audio of a synthesis goes. */
  datatype OutputPlan =
    | Given(path: string)                                    // `-o PATH`
    | TempFile(dir: string, prefix: string, extension: string) // `--play` without `-o`
    | Stamped(path: string)                                  // `OUTPUT_DIR/supertonic_<ms>.<format>`

  /** The output path of `main`: `-o` wins, then `--play` asks for a temporary file, else a timestamped name. */
  function ChooseOutput(config: Config, args: CliArgs, millis: int): (r: OutputPlan)
    ensures IsSet(args.output) ==> r == Given(args.output.value)
    ensures !IsSet(args.output) && args.play ==>
              && r.TempFile? && r.prefix == "supertonic_"
              && r.extension == Lower(config.defaultFormat)
              && r.dir == (if config.tempDir.Some? then config.tempDir.value else SystemTempDir)
    ensures !IsSet(args.output) && !args.play ==>
              r == Stamped(JoinPath(config.outputDir,
                                    "supertonic_" + IntToString(millis) + "." + Lower(config.defaultFormat)))
    ensures !IsSet(args.output) && !args.play ==> r.Stamped? && EndsWith(r.path, "." + Lower(config.defaultFormat))
  {
    if IsSet(args.output) then Given(args.output.value)
    else if args.play then
      TempFile(if config.tempDir.Some? then config.tempDir.value else SystemTempDir, "supertonic_",
               Lower(config.defaultFormat))
    else
      var name := "supertonic_" + IntToString(millis) + "." + Lower(config.defaultFormat);
      assert EndsWith(name, "." + Lower(config.defaultFormat)) by {
        assert name == ("supertonic_" + IntToString(millis)) + ("." + Lower(config.defaultFormat));
        EndsWithAppended("supertonic_" + IntToString(millis), "." + Lower(config.defaultFormat));
      }
      EndsWithAffix(config.outputDir, name);
      Stamped(JoinPath(config.outputDir, name))
  }

  /** A path ending in `name` joined under a directory still ends in every suffix of `name`. */
  lemma EndsWithAffix(dir: string, name: string)
    ensures forall s :: EndsWith(name, s) ==> EndsWith(JoinPath(dir, name), s)
  {
    var p := JoinPath(dir, name);
    forall s | EndsWith(name, s) ensures EndsWith(p, s) {
      assert p[|p| - |name|..] == name;
      assert p[|p| - |s|..] == name[|name| - |s|..];
    }
  }

  /** A timestamp printed in decimal has no directory separator. */
  lemma StampHasNoSeparator(millis: int)
    ensures Lacks("supertonic_" + IntToString(millis), '/')
  {
    var digits := NatToString(if millis < 0 then -millis else millis);
    var stamp := IntToString(millis);
    assert forall k :: 0 <= k < |digits| ==> IsDigit(digits[k]);
    var name := "supertonic_" + stamp;
    forall k | 0 <= k < |name| ensures name[k] != '/' {
      if k >= 11 {
        if millis < 0 {
          assert stamp == "-" + digits;
          if k > 11 { assert name[k] == digits[k - 12]; }
        } else {
          assert name[k] == digits[k - 11];
        }
      }
    }
  }

  /**
   * The timestamped file has the configured format, lower-cased, as its
   * extension, which selects the converter's format.
   */
  lemma StampedPathExtension(config: Config, args: CliArgs, millis: int)
    requires !IsSet(args.output) && !args.play
    requires config.defaultFormat != [] && Lacks(config.defaultFormat, '/') && Lacks(config.defaultFormat, '.')
    ensures Extension(ChooseOutput(config, args, millis).path) == "." + Lower(config.defaultFormat)
  {
    var format := config.defaultFormat;
    var stem := "supertonic_" + IntToString(millis);
    StampHasNoSeparator(millis);
    LowerKeepsPlain(format);
    ExtensionOfJoin(config.outputDir, stem, Lower(format));
    LowerIdempotent(format);
  }

  /** Lower-casing neither adds a '/' nor a '.' to a name. */
  lemma LowerKeepsPlain(format: string)
    requires Lacks(format, '/') && Lacks(format, '.')
    ensures Lacks(Lower(format), '/') && Lacks(Lower(format), '.')
  {
    forall k | 0 <= k < |format| ensures Lower(format)[k] != '/' && Lower(format)[k] != '.' {
      assert format[k] != '/' && format[k] != '.';
    }
  }

  /** Lower-casing twice is lower-casing once. */
  lemma LowerIdempotent(x: string)
    ensures Lower(Lower(x)) == Lower(x)
  {
  }

  /** The argument checks of `main`, in order: quality within [1, 20], then speed within [0.5, 2.0]. */
  function ValidationError(quality: int, speed: real): (r: Option<string>)
    ensures r.None? <==> 1 <= quality <= 20 && 0.5 <= speed <= 2.0
    ensures !(1 <= quality <= 20) ==> r == Some("quality must be between 1 and 20")
    ensures 1 <= quality <= 20 && r.Some? ==> r == Some("speed must be between 0.5 and 2.0")
  {
    if quality < 1 || quality > 20 then Some("quality must be between 1 and 20")
    else if speed < 0.5 || speed > 2.0 then Some("speed must be between 0.5 and 2.0")
    else None
  }

  /** The exit status, the files and the requests sent by one run. */
  datatype Run = Run(exit: int, files: map<string, Bytes>, sent: seq<HttpRequest>)

  /** The request `main` sends for a synthesis: the voice is normalized before `synthesize` normalizes it again. */
  function MainRequest(config: Config, args: CliArgs, text: string): HttpRequest {
    Post(RStrip(OrElse(Some(args.url), config.baseUrl), '/') + "/synthesize",
         SynthesizeBody(SynthesizePayload(config, text, NormalizeVoiceStyle(Some(args.voice)),
                                          Some(args.quality), Some(args.speed))))
  }

  /** The path a plan resolves to, given the name the temporary file would get. */
  function PlanPath(plan: OutputPlan, temp: string): string {
    match plan
    case Given(path) => path
    case TempFile(_, _, _) => temp
    case Stamped(path) => path
  }

  /** The health check of `main`: exit 0 when the server answers with JSON, 1 otherwise. */
  function HealthRun(config: Config, args: CliArgs, files: map<string, Bytes>, server: HttpRequest -> Exchange): Run {
    var request := Get(RStrip(OrElse(Some(args.url), config.baseUrl), '/') + "/health");
    Run(if Receive(server(request)).Success? then 0 else 1, files, [request])
  }

  /**
   * One run of `main` as written. `temp` is the name `mkstemp` picks. The
   * temporary file for `--play` is created before the arguments are checked,
   * and it is removed only after a successful synthesis.
   */
  function MainEffect(config: Config, args: CliArgs, millis: int, temp: string, files: map<string, Bytes>,
                      readOnly: set<string>, codec: Codec, decode: string -> Result<Bytes, string>,
                      server: HttpRequest -> Exchange): Run
  {
    if args.health then HealthRun(config, args, files, server)
    else if !IsSet(args.text) then Run(2, files, [])
    else WrittenSynthesisRun(config, args, args.text.value, millis, temp, files, readOnly, codec, decode, server)
  }

  /** The output file and synthesis of a run as written, once the text is known to be given. */
  function WrittenSynthesisRun(config: Config, args: CliArgs, text: string, millis: int, temp: string,
                               files: map<string, Bytes>, readOnly: set<string>, codec: Codec,
                               decode: string -> Result<Bytes, string>, server: HttpRequest -> Exchange): Run
  {
    var plan := ChooseOutput(config, args, millis);
    var created := if plan.TempFile? then files[temp := []] else files;
    WrittenRunFromOutput(config, args, text, plan.TempFile?, PlanPath(plan, temp), created, readOnly, codec, decode,
                         server)
  }

  /** The rest of such a run once the output file `path` is chosen, and created when it is a temporary file. */
  function WrittenRunFromOutput(config: Config, args: CliArgs, text: string, isTemp: bool, path: string,
                                created: map<string, Bytes>, readOnly: set<string>, codec: Codec,
                                decode: string -> Result<Bytes, string>, server: HttpRequest -> Exchange): Run
  {
    if ValidationError(args.quality, args.speed).Some? then Run(2, created, [])
    else
      var request := MainRequest(config, args, text);
      var (result, saved) := SynthesizeEffect(created, readOnly, codec, decode, server(request), Some(path));
      if result.Failure? then Run(1, saved, [request])
      else Run(0, if isTemp then saved - {path} else saved, [request])
  }

  /**
   * One run of `main` with the temporary file handled as intended: the
   * arguments are checked before any file is created, and the temporary file
   * is removed whether the synthesis succeeds or fails.
   */
  function CorrectedMainEffect(config: Config, args: CliArgs, millis: int, temp: string, files: map<string, Bytes>,
                               readOnly: set<string>, codec: Codec, decode: string -> Result<Bytes, string>,
                               server: HttpRequest -> Exchange): Run
  {
    if args.health then HealthRun(config, args, files, server)
    else if !IsSet(args.text) then Run(2, files, [])
    else if ValidationError(args.quality, args.speed).Some? then Run(2, files, [])
    else CorrectedSynthesisRun(config, args, args.text.value, millis, temp, files, readOnly, codec, decode, server)
  }

  /** The synthesis of a corrected run, once the arguments are known to be valid. */
  function CorrectedSynthesisRun(config: Config, args: CliArgs, text: string, millis: int, temp: string,
                                 files: map<string, Bytes>, readOnly: set<string>, codec: Codec,
                                 decode: string -> Result<Bytes, string>, server: HttpRequest -> Exchange): Run
  {
    var plan := ChooseOutput(config, args, millis);
    var created := if plan.TempFile? then files[temp := []] else files;
    CorrectedRunFromOutput(config, args, text, plan.TempFile?, PlanPath(plan, temp), created, readOnly, codec, decode,
                           server)
  }

  /** The rest of a corrected run once the output file `path` is chosen, and created when it is a temporary file. */
  function CorrectedRunFromOutput(config: Config, args: CliArgs, text: string, isTemp: bool, path: string,
                                  created: map<string, Bytes>, readOnly: set<string>, codec: Codec,
                                  decode: string -> Result<Bytes, string>, server: HttpRequest -> Exchange): Run
  {
    var request := MainRequest(config, args, text);
    var (result, saved) := SynthesizeEffect(created, readOnly, codec, decode, server(request), Some(path));
    Run(if result.Failure? then 1 else 0, if isTemp then saved - {path} else saved, [request])
  }

  /** Invalid arguments end the run with status 2 before any request is sent. */
  lemma ValidationPrecedesRequest(config: Config, args: CliArgs, millis: int, temp: string,
                                  files: map<string, Bytes>, readOnly: set<string>, codec: Codec,
                                  decode: string -> Result<Bytes, string>, server: HttpRequest -> Exchange)
    requires !args.health && IsSet(args.text) && ValidationError(args.quality, args.speed).Some?
    ensures MainEffect(config, args, millis, temp, files, readOnly, codec, decode, server).exit == 2
    ensures MainEffect(config, args, millis, temp, files, readOnly, codec, decode, server).sent == []
    ensures CorrectedMainEffect(config, args, millis, temp, files, readOnly, codec, decode, server)
            == Run(2, files, [])
  {
  }

  /**
   * As written, `--play` with a quality out of range exits with status 2 and
   * leaves the empty temporary file behind.
   */
  lemma MainLeaksTempOnUsageError(config: Config, args: CliArgs, millis: int, temp: string,
                                  files: map<string, Bytes>, readOnly: set<string>, codec: Codec,
                                  decode: string -> Result<Bytes, string>, server: HttpRequest -> Exchange)
    requires !args.health && IsSet(args.text) && !IsSet(args.output) && args.play && args.quality == 0
    requires temp !in files
    ensures var run := MainEffect(config, args, millis, temp, files, readOnly, codec, decode, server);
            run.exit == 2 && temp in run.files && temp !in files
  {
  }

  /**
   * As written, `--play` against a server that cannot be reached exits with
   * status 1 and leaves the temporary file behind.
   */
  lemma MainLeaksTempOnServerError(config: Config, args: CliArgs, millis: int, temp: string,
                                   files: map<string, Bytes>, readOnly: set<string>, codec: Codec,
                                   decode: string -> Result<Bytes, string>, server: HttpRequest -> Exchange)
    requires !args.health && IsSet(args.text) && !IsSet(args.output) && args.play
    requires ValidationError(args.quality, args.speed).None?
    requires server(MainRequest(config, args, args.text.value)).Unreachable?
    requires temp !in files
    ensures var run := MainEffect(config, args, millis, temp, files, readOnly, codec, decode, server);
            run.exit == 1 && temp in run.files && temp !in files
  {
  }

  /** With the correction, a `--play` run without `-o` leaves the files exactly as it found them, whatever happens. */
  lemma CorrectedMainLeavesNoTemp(config: Config, args: CliArgs, millis: int, temp: string,
                                  files: map<string, Bytes>, readOnly: set<string>, codec: Codec,
                                  decode: string -> Result<Bytes, string>, server: HttpRequest -> Exchange)
    requires !IsSet(args.output) && args.play && temp !in files
    ensures CorrectedMainEffect(config, args, millis, temp, files, readOnly, codec, decode, server).files == files
  {
    if !args.health && IsSet(args.text) && ValidationError(args.quality, args.speed).None? {
      var plan := ChooseOutput(config, args, millis);
      assert plan.TempFile? && PlanPath(plan, temp) == temp;
      var request := MainRequest(config, args, args.text.value);
      var created := files[temp := []];
      SynthesizeReturnsWhatItSaves(created, readOnly, codec, decode, server(request), Some(temp));
      var saved := SynthesizeEffect(created, readOnly, codec, decode, server(request), Some(temp)).1;
      TempRemovedRestores(files, created, saved, temp);
    }
  }

  /** Whatever was done to a fresh file alone, removing it restores the files. */
  lemma TempRemovedRestores(files: map<string, Bytes>, created: map<string, Bytes>, saved: map<string, Bytes>,
                            temp: string)
    requires temp !in files && created == files[temp := []]
    requires forall p :: p != temp ==> (p in saved <==> p in created) && (p in created ==> saved[p] == created[p])
    ensures saved - {temp} == files
  {
  }

  /** A successful synthesis run sends exactly one request: the text with the normalized voice and the given quality and speed. */
  lemma MainSendsOneRequest(config: Config, args: CliArgs, millis: int, temp: string,
                            files: map<string, Bytes>, readOnly: set<string>, codec: Codec,
                            decode: string -> Result<Bytes, string>, server: HttpRequest -> Exchange)
    requires !args.health
    ensures var run := MainEffect(config, args, millis, temp, files, readOnly, codec, decode, server);
            run.exit != 2 ==>
              && IsSet(args.text) && ValidationError(args.quality, args.speed).None?
              && run.sent == [MainRequest(config, args, args.text.value)]
              && MainRequest(config, args, args.text.value).body.request.totalStep == args.quality
  {
  }

  /** `main` as written; `millis` is the clock reading used for the timestamped name. */
  method RunMain(config: Config, args: CliArgs, millis: int, server: HttpRequest -> Exchange, fs: FileSystem,
                 codec: Codec, decode: string -> Result<Bytes, string>)
    returns (exit: int, ghost sent: seq<HttpRequest>, ghost temp: string)
    modifies fs
    ensures temp !in old(fs.files)
    ensures Run(exit, fs.files, sent)
            == MainEffect(config, args, millis, temp, old(fs.files), fs.readOnly, codec, decode, server)
  {
    temp := UnusedName(fs.files);
    var client := new SupertonicClient(config, Some(args.url), server);
    // try:
    if args.health {
      var health := client.Health();
      exit := if health.Success? then 0 else 1;
    } else if !IsSet(args.text) {
      exit := 2; // parser.error
    } else {
      exit, temp := SynthesizeAsWritten(client, args, args.text.value, millis, fs, codec, decode);
    }
    // finally:
    client.Close();
    sent := client.session.sent;
  }

  /**
   * The output file and synthesis of `main` as written: the temporary file is
   * created first and unlinked only after a successful synthesis.
   */
  method SynthesizeAsWritten(client: SupertonicClient, args: CliArgs, text: string, millis: int, fs: FileSystem,
                             codec: Codec, decode: string -> Result<Bytes, string>)
    returns (exit: int, ghost temp: string)
    requires client.baseUrl == RStrip(OrElse(Some(args.url), client.config.baseUrl), '/')
    modifies client.session, fs
    ensures temp !in old(fs.files)
    ensures var run := WrittenSynthesisRun(client.config, args, text, millis, temp, old(fs.files), fs.readOnly,
                                           codec, decode, client.session.server);
            exit == run.exit && fs.files == run.files && client.session.sent == old(client.session.sent) + run.sent
  {
    temp := UnusedName(fs.files);
    var plan := ChooseOutput(client.config, args, millis);
    var path;
    if plan.TempFile? {
      path := fs.CreateTemp(plan.dir, plan.prefix, plan.extension, {});
      temp := path;
    } else {
      path := plan.path;
    }
    exit := FinishAsWritten(client, args, text, plan.TempFile?, path, fs, codec, decode);
  }

  /** The validation, synthesis and clean-up of `main` once its output file `path` exists or is chosen. */
  method FinishAsWritten(client: SupertonicClient, args: CliArgs, text: string, isTemp: bool, path: string,
                         fs: FileSystem, codec: Codec, decode: string -> Result<Bytes, string>)
    returns (exit: int)
    requires client.baseUrl == RStrip(OrElse(Some(args.url), client.config.baseUrl), '/')
    requires isTemp ==> path in fs.files
    modifies client.session, fs
    ensures var run := WrittenRunFromOutput(client.config, args, text, isTemp, path, old(fs.files), fs.readOnly,
                                            codec, decode, client.session.server);
            exit == run.exit && fs.files == run.files && client.session.sent == old(client.session.sent) + run.sent
  {
    if ValidationError(args.quality, args.speed).Some? {
      exit := 2; // parser.error, the temporary file stays
    } else {
      ghost var created := fs.files;
      ghost var request := MainRequest(client.config, args, text);
      var result := client.Synthesize(text, NormalizeVoiceStyle(Some(args.voice)), Some(args.quality),
                                      Some(args.speed), Some(path), fs, codec, decode);
      if result.Failure? {
        exit := 1; // the temporary file stays
      } else {
        if isTemp {
          SavePathRemains(created, fs.readOnly, codec, decode, client.session.server(request), path);
          // playback happens here; then the temporary file is unlinked, errors ignored
          var _ := fs.Unlink(path);
        }
        exit := 0;
      }
    }
  }

  /** `main` with the temporary file handled as intended. */
  method RunMainCorrected(config: Config, args: CliArgs, millis: int, server: HttpRequest -> Exchange, fs: FileSystem,
                          codec: Codec, decode: string -> Result<Bytes, string>)
    returns (exit: int, ghost sent: seq<HttpRequest>, ghost temp: string)
    modifies fs
    ensures temp !in old(fs.files)
    ensures Run(exit, fs.files, sent)
            == CorrectedMainEffect(config, args, millis, temp, old(fs.files), fs.readOnly, codec, decode, server)
  {
    temp := UnusedName(fs.files);
    var client := new SupertonicClient(config, Some(args.url), server);
    if args.health {
      var health := client.Health();
      exit := if health.Success? then 0 else 1;
    } else if !IsSet(args.text) || ValidationError(args.quality, args.speed).Some? {
      exit := 2;
    } else {
      exit, temp := SynthesizeCleaningUp(client, args, args.text.value, millis, fs, codec, decode);
    }
    client.Close();
    sent := client.session.sent;
  }

  /** The synthesis of a corrected run: the temporary file is unlinked in `finally`. */
  method SynthesizeCleaningUp(client: SupertonicClient, args: CliArgs, text: string, millis: int, fs: FileSystem,
                              codec: Codec, decode: string -> Result<Bytes, string>)
    returns (exit: int, ghost temp: string)
    requires client.baseUrl == RStrip(OrElse(Some(args.url), client.config.baseUrl), '/')
    modifies client.session, fs
    ensures temp !in old(fs.files)
    ensures var run := CorrectedSynthesisRun(client.config, args, text, millis, temp, old(fs.files), fs.readOnly,
                                             codec, decode, client.session.server);
            exit == run.exit && fs.files == run.files && client.session.sent == old(client.session.sent) + run.sent
  {
    temp := UnusedName(fs.files);
    var plan := ChooseOutput(client.config, args, millis);
    var path;
    if plan.TempFile? {
      path := fs.CreateTemp(plan.dir, plan.prefix, plan.extension, {});
      temp := path;
    } else {
      path := plan.path;
    }
    exit := FinishCleaningUp(client, args, text, plan.TempFile?, path, fs, codec, decode);
  }

  /** The synthesis and clean-up of a corrected run once its output file `path` exists or is chosen. */
  method FinishCleaningUp(client: SupertonicClient, args: CliArgs, text: string, isTemp: bool, path: string,
                          fs: FileSystem, codec: Codec, decode: string -> Result<Bytes, string>)
    returns (exit: int)
    requires client.baseUrl == RStrip(OrElse(Some(args.url), client.config.baseUrl), '/')
    requires isTemp ==> path in fs.files
    modifies client.session, fs
    ensures var run := CorrectedRunFromOutput(client.config, args, text, isTemp, path, old(fs.files), fs.readOnly,
                                              codec, decode, client.session.server);
            exit == run.exit && fs.files == run.files && client.session.sent == old(client.session.sent) + run.sent
  {
    ghost var created := fs.files;
    ghost var request := MainRequest(client.config, args, text);
    // try:
    var result := client.Synthesize(text, NormalizeVoiceStyle(Some(args.voice)), Some(args.quality),
                                    Some(args.speed), Some(path), fs, codec, decode);
    exit := if result.Failure? then 1 else 0;
    // finally:
    if isTemp {
      SavePathRemains(created, fs.readOnly, codec, decode, client.session.server(request), path);
      var _ := fs.Unlink(path);
    }
  }
}
