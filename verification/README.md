# Supertonic TTS client, modelled in Dafny

This project models the client side of the Supertonic text-to-speech service in
Dafny: the command-line client `inference.py` and the MCP tool
`supertonic_text_to_speech_mcp.py`. Both talk to a Supertonic server over HTTP.
They send text with a voice style, a step count ("quality") and a speed. The
server answers with base64 WAV audio, which the client returns, saves, converts
to another format, or plays.

The model covers:

- **Configuration** (`dotenv.dfy`, modules `DotEnv` and `Settings`). This is the
  fallback `.env` reader of `_load_env`, with `.env` lines applied to an
  `Environment` object whose variables only ever grow. It also covers
  `_get_env`, `_get_env_int`, `_get_env_float` and the configuration constants
  built from them.
- **Audio conversion** (`audio.dfy`, module `Audio`). This is
  `convert_audio_format` over a file system object (`Io.FileSystem`: a map from
  paths to bytes plus a set of read-only paths). The encoder is an oracle
  (`Codec`).
- **The client class** (`client.dfy`, module `Client`). This covers
  `normalize_voice_style`, `SupertonicClient` (`__init__`, `health`,
  `synthesize`, `batch_synthesize` and `close`) and the convenience function
  `synthesize_text`. The HTTP session is an `Io.Session` object: a server oracle plus the log of every request it sent.
  A state-changing method is proved equal to a specification function of the
  old state (`SynthesizeEffect`, `BatchEffect`, `FanOutFrom`). What the client
  promises is proved about those functions.
- **`main`** (`cli.dfy`, module `Cli`). This covers the choice of the output file
  (given, temporary for `--play`, or timestamped), the range checks, the
  synthesis, the removal of the temporary file, and the exit status. It is
  modelled twice: as written, and corrected (see "Findings").
- **The MCP tool** (`tool.dfy`, module `Tool`). This covers the health,
  synthesize and batch modes, playback through a temporary file, saving and
  batch saving, the argument checks, and the mapping of every exception to an
  error result.

Supporting modules: `text.dfy` (`Text`) holds the Python string and path
operations the code relies on: `strip`, `rstrip`, `lower`, `int()`,
`Path.suffix`, `os.path.basename` and joining. `io.dfy` (`Io`) holds the
exceptions, the wire data, `Session` and `FileSystem`. `wrappers.dfy` holds
`Option`, `Result` and `Outcome`.

Error messages are not kept as strings. The model carries each message as the
structured value that determines it. `Tool.ErrorMessage`,
`Tool.PlaybackText`, `Io.ProblemMessage` and `Io.Message` render these values
into the exact texts of the source.

## Model

| member | source | states |
|---|---|---|
| Text.Strip | inference.py:49 | The stripped line starts and ends with a non-whitespace character and is no longer than the line. |
| Text.StripUnique | inference.py:49 | `strip()` gives exactly the slice `s[a..b]` when only whitespace lies outside it and it neither starts nor ends with whitespace. |
| Text.StripBounds | inference.py:49 | Such a slice exists for every text. With `StripUnique`, `strip()` removes the leading and trailing whitespace and nothing else. |
| Text.StripEmpty | inference.py:49-51 | A line strips to the empty string exactly when every character is whitespace, so such lines are skipped. |
| Text.StripKeeps | inference.py:54 | Text without whitespace at either end is left unchanged by `strip()`. |
| Text.FirstIndex | inference.py:52-53 | `split('=', 1)` splits at the first '=': no earlier character is '='. |
| Text.RStrip | inference.py:182 | `rstrip('/')` keeps a prefix that does not end in '/' and removes only '/' characters. |
| Text.Lower | inference.py:126 | `lower()` keeps the length and lower-cases each character. |
| Text.ParseInt | inference.py:71 | `int(value)` succeeds only on text that is not blank after stripping. |
| Text.ParseIntRoundTrip | inference.py:71 | `int(str(n)) == n` for every integer, negative ones included. |
| Text.ParseIntBlank | inference.py:71 | `int()` of whitespace alone raises. |
| Text.ParseDigitString | inference.py:71 | A string of decimal digits parses to its value. |
| Text.ParseNegatedDigitString | inference.py:71 | `-` followed by digits parses to the negated value. |
| Text.NatToString | inference.py:309 | The decimal text of `i+1` is non-empty, all digits, with no leading zero. |
| Text.NatToStringValue | inference.py:309 | The decimal text of a number reads back as that number. |
| Text.NatToStringInjective | inference.py:309 | Different numbers give different decimal texts. |
| Text.Suffix | inference.py:125 | `Path.suffix` is empty or a dot followed by at least one character. |
| Text.SuffixOfJoin | inference.py:125 | The suffix of `dir/stem.ext` is `.ext` when stem and ext hold no separator. |
| Text.BaseName | supertonic_text_to_speech_mcp.py:35 | `os.path.basename` holds no '/'. |
| Text.BaseNameOfJoin | supertonic_text_to_speech_mcp.py:35 | The base name of `dir/name` is `name`. |
| Text.JoinPath | inference.py:488 | `os.path.join(dir, name)` ends with `name`. |
| Text.JoinPathInjective | inference.py:309 | Joining one directory with two different names gives two different paths. |
| Io.Receive | inference.py:193-195 | A reply succeeds exactly when the server answered with a status outside 400-599 and a JSON body. Unreachable gives ConnectionError and 4xx/5xx gives HTTPError, both request exceptions. |
| Io.DecodeAudio | inference.py:242 | A missing `audio_base64` is a KeyError. Undecodable base64 is a ValueError that is not a request exception. Otherwise the result is the decoded bytes. |
| Io.Session.constructor | inference.py:183 | A new `requests.Session()` has no timeout set, is open, and has sent nothing. |
| Io.Session.Send | inference.py:235-241 | Each request is appended to the session's log, and its result is the server's reply after `raise_for_status` and `json()`. |
| Io.Session.Close | inference.py:316-318 | Closing marks the session closed. |
| Io.WriteEffect | inference.py:130 | `write_bytes` succeeds exactly when the path is writable. It then holds the data and no other file changes. A failure is an OSError and leaves the files unchanged. |
| Io.FileSystem.WriteBytes | inference.py:130 | The write changes the files exactly as `WriteEffect` says. |
| Io.FileSystem.CreateTemp | inference.py:477-482 | `mkstemp` creates one new empty, writable file with the requested suffix, under a name that did not exist before. |
| Io.FileSystem.Unlink | inference.py:526 | Removing an existing file deletes exactly that file. Removing a missing one raises OSError and changes nothing. |
| DotEnv.StripQuotes | inference.py:55-58 | One pair of matching double or single quotes around the value is removed. A lone quote character becomes empty. Anything else is kept as is. |
| DotEnv.ParseLine | inference.py:49-54 | A line is ignored exactly when it is blank after stripping, starts with '#', or has no '='. Otherwise the key holds no '='. The key and value it gives are stated by `DotEnv.ParseAssignment`. |
| DotEnv.ParseQuotedAssignment | inference.py:52-58 | `KEY="value"` reads back as the pair (KEY, value). |
| DotEnv.ParseBareAssignment | inference.py:52-58 | `KEY=value` with an unquoted, trimmed value reads back as (KEY, value). |
| DotEnv.ParseAssignment | inference.py:49-58 | A line `KEY=rest`, with any whitespace before KEY, between KEY and '=' and at the end of the line, gives KEY and the stripped, unquoted rest. |
| DotEnv.LoadKeepsExisting | inference.py:59-60 | A variable already in the environment keeps its value whatever the file says. |
| DotEnv.LoadFirstDefinitionWins | inference.py:48-60 | A new variable is defined exactly when some line defines it, and it gets the value of the first such line. |
| DotEnv.LoadOnlyAddsDefinedKeys | inference.py:59-60 | Every variable the file adds is defined by one of its lines. |
| DotEnv.Environment.LoadDotEnv | inference.py:36-61 | Without a `.env` file the environment is unchanged. Otherwise it is the old environment with the file's lines applied in order. |
| DotEnv.Environment.LoadLines | inference.py:48-60 | The loop over the lines applies them in order. |
| DotEnv.Environment.LoadLine | inference.py:49-60 | One line adds its variable only if the variable is not already set. |
| Settings.GetEnv | inference.py:66-67 | The variable's value if set, else the default. |
| Settings.GetEnvInt | inference.py:69-71 | An unset or empty variable gives the default. Otherwise the result is `int()` of its text, and a text `int()` rejects raises ValueError. |
| Settings.GetEnvIntReadsPrinted | inference.py:69-71 | A variable holding a printed integer yields that integer. |
| Settings.GetEnvIntBlankFails | inference.py:71 | A variable of spaces only is not empty, so it raises instead of falling back to the default. |
| Settings.GetEnvFloat | inference.py:73-75 | An unset or empty variable gives the default. Otherwise the call succeeds exactly when `float()` parses the text, and then returns the parsed value. A failure is a ValueError. |
| Settings.LoadConfig | inference.py:78-85 | The configuration loads exactly when TIMEOUT, DEFAULT_QUALITY and DEFAULT_SPEED parse. A failure is the error of the first of them, in source order, that does not parse. Each field holds the value read from its own variable with its own default. TEMP_DIR is absent exactly when it is unset or empty. |
| Settings.DefaultConfig | inference.py:78-85 | With no variables set, the configuration is the source's defaults. |
| Audio.Extension | inference.py:125-126 | The lower-cased suffix is empty or a dot followed by at least one character. |
| Audio.FormatName | inference.py:156 | The format is the extension without its dot. |
| Audio.ExportBitrate | inference.py:159-162 | A bitrate, 192k, is passed exactly for mp3. |
| Audio.ExtensionOfJoin | inference.py:125-126 | The extension of `dir/stem.ext` is `.` followed by ext lower-cased. |
| Audio.FormatOfJoin | inference.py:125-131 | `dir/stem.ext` is written directly exactly when ext lower-cases to `wav`, and otherwise exported in that format. |
| Audio.ExportEffect | inference.py:151-162 | The export succeeds exactly when the encoder accepts the audio and the target is writable. The target then holds the encoded bytes. A failure changes nothing. |
| Audio.ConvertEffect | inference.py:114-169 | A successful conversion leaves the target present. A failure leaves the files unchanged. No file other than the target changes. |
| Audio.ConvertWavIsIdentity | inference.py:129-131 | A `.wav` target receives the audio bytes unchanged. |
| Audio.ConvertWithoutPydub | inference.py:134-144 | Without pydub, any other extension raises the ImportError and touches no file. |
| Audio.ConvertTranscodes | inference.py:146-162 | With pydub, the target holds the encoding in the extension's format (mp3 at 192k). An encoder error changes nothing. |
| Audio.ConvertAudioFormat | inference.py:114-169 | The method changes the files exactly as `ConvertEffect` says. The temporary WAV file is gone afterwards. |
| Audio.ExportThroughTemp | inference.py:146-169 | Writing, exporting from and then unlinking a fresh temporary WAV file has exactly the effect of the export. |
| Audio.UnlinkFreshAfterWrite | inference.py:164-169 | Removing a temporary file created and then written around leaves only the target's change. |
| Client.NormalizeVoiceStyle | inference.py:94-111 | None stays None. A name ending in `.json` is kept, and any other name gets `.json` appended. |
| Client.NormalizeIdempotent | inference.py:94-111 | Normalizing twice equals normalizing once. |
| Client.OrElse | inference.py:182 | `base_url or BASE_URL`: a given non-empty value wins, else the fallback. |
| Client.VoiceField | inference.py:232-233 | A voice is sent exactly when it is non-empty, and it is sent normalized. |
| Client.SynthesizePayload | inference.py:219-233 | The request carries the text. Each of the step count, speed and voice is the argument when given, else its configured default, independently of the others. The voice sent is the normalized resolved voice, present iff that voice is non-empty, and always ends in `.json`. |
| Client.PayloadIgnoresConfigForGivenArguments | inference.py:219-225 | When every argument is given, the configuration does not matter. |
| Client.PayloadDefaultsOnlyWhenOmitted | inference.py:219-225 | Omitted arguments are exactly the configured defaults. |
| Client.NormalizingTwiceIsHarmless | inference.py:504-510 | `main` normalizing the voice before `synthesize` normalizes it again changes nothing, except that an empty voice is then sent as `.json`. |
| Client.BatchVoices | inference.py:276-277 | Without voice styles, every text gets no voice. |
| Client.BatchRequests | inference.py:282-291 | One request per text, in order, each with its own voice only if non-empty. |
| Client.BatchItemMatchesSingleRequest | inference.py:282-291 | Each batch request is the request `synthesize` would send for that text and voice. |
| Client.OutputPathIsWav | inference.py:309 | Every batch output name is a `.wav` file, so it is written without pydub. |
| Client.OutputPathsDistinct | inference.py:309 | Different items get different output files. |
| Client.OutputPathsDistinctWav | supertonic_text_to_speech_mcp.py:223-225 | The output paths of a batch are pairwise distinct `.wav` files. |
| Client.ClientSaverSavesOnlyTarget | inference.py:114-169 | Conversion changes no file but its target. |
| Client.ClientSaverSavesWav | inference.py:129-131 | Converting to a `.wav` target stores the audio itself. |
| Client.FanOutAligned | inference.py:302-314 | A successful batch returns one decoded audio per result, in result order. |
| Client.FanOutFailsAtFirstUndecodable | inference.py:304-306 | Without a save directory no file changes. The batch fails exactly when some result does not decode, with the error of the first such result. |
| Client.FanOutSavesEachItem | inference.py:304-311 | With distinct targets, each target holds exactly the audio returned for its item, and no other file changes. |
| Client.BatchSavesEachItem | inference.py:301-314 | With a save directory, each `output_<i+1>.wav` of a successful batch holds the audio returned for item i. |
| Client.FanOutStopsAtFirstFailure | inference.py:304-311 | With distinct targets and a save that changes only its target, a failed loop stops at the first failing item k. The items before k decode and save without error. On the files they leave, item k fails to decode, or saving it raises the returned error and gives the final files. The targets of the items after k are unchanged. |
| Client.BatchStopsAtFirstFailure | inference.py:301-314 | With a save directory, a batch that fails after its reply arrived stops at the first failing result k. The results before k decode and are saved without error. The error is result k's decoding error, or the error of saving it on the files the earlier saves left. The `output_<j+1>.wav` files of the later results are unchanged. |
| Client.BatchWithoutDirWritesNothing | inference.py:301-314 | Without a save directory no file changes, and the batch fails exactly when some result is undecodable. |
| Client.SynthesizeReturnsWhatItSaves | inference.py:241-248 | The returned audio is the decoded reply, and a request error changes nothing. Without a save path no file changes. Only the save path can change, and a `.wav` save path holds exactly the returned audio. |
| Client.SavePathRemains | inference.py:244-245 | A file that exists at the save path still exists after `synthesize`, whatever happens. |
| Client.SupertonicClient.constructor | inference.py:175-184 | The base URL is the given or configured one with trailing slashes removed. The new session has the configured timeout and has sent nothing. |
| Client.SupertonicClient.Health | inference.py:186-195 | Sends exactly one GET to `/health` and returns its reply. |
| Client.SupertonicClient.Synthesize | inference.py:197-248 | Sends exactly the synthesis request for its arguments to `/synthesize`. Result and files are as `SynthesizeEffect` says. |
| Client.SupertonicClient.BatchSynthesize | inference.py:250-314 | Mismatched lengths raise ValueError before anything is sent or written. Otherwise it sends one `/batch` request with every item, and result and files are as `BatchEffect` says. |
| Client.SupertonicClient.SaveResult | inference.py:308-311 | With a save directory the item is converted to `output_<i+1>.wav`. Without one nothing changes. |
| Client.SupertonicClient.FanOut | inference.py:302-314 | The loop over the results has exactly the effect of `FanOutFrom`. |
| Client.SupertonicClient.Close | inference.py:316-318 | The session is closed and nothing more is sent. |
| Client.SynthesizeText | inference.py:328-347 | The convenience function sends exactly one synthesis request to the given or configured base URL and saves to its path, with the effect of `SynthesizeEffect`. |
| Cli.ChooseOutput | inference.py:471-488 | `-o` wins. Otherwise `--play` asks for a `supertonic_` temporary file in TEMP_DIR with the lower-cased format. Otherwise the path is `OUTPUT_DIR/supertonic_<millis>.<format>`, with the format lower-cased, so it ends in `.` plus that format. |
| Cli.StampedPathExtension | inference.py:484-488 | The timestamped output is converted by its lower-cased format. |
| Cli.ValidationError | inference.py:491-496 | A run is rejected exactly when quality is outside 1-20 or speed outside 0.5-2.0, with the quality message first. |
| Cli.ValidationPrecedesRequest | inference.py:491-496 | Invalid arguments exit 2 without a request, both as written and corrected. |
| Cli.MainSendsOneRequest | inference.py:503-510 | Every synthesis run that does not exit 2 sent exactly one request, carrying the quality as its step count. |
| Cli.MainLeaksTempOnUsageError | inference.py:471-496 | As written, `--play` with an invalid quality exits 2 and leaves the new temporary file behind. |
| Cli.MainLeaksTempOnServerError | inference.py:503-528 | As written, `--play` against an unreachable server exits 1 and leaves the temporary file behind. |
| Cli.CorrectedMainLeavesNoTemp | inference.py:471-528 | Corrected, `--play` without `-o` leaves the files exactly as they were, whatever the outcome. |
| Cli.RunMain | inference.py:454-543 | `main` as written has exactly the exit status, files and requests of `MainEffect`. |
| Cli.SynthesizeAsWritten | inference.py:471-488 | The output choice as written, before validation, followed by the rest of the run. |
| Cli.FinishAsWritten | inference.py:491-530 | Validation, synthesis and the unlink after a successful run, as written. |
| Cli.RunMainCorrected | inference.py:454-543 | The corrected `main` has exactly the effect of `CorrectedMainEffect`. |
| Cli.SynthesizeCleaningUp | inference.py:471-488 | The output choice of a corrected run, made after validation. |
| Cli.FinishCleaningUp | inference.py:503-528 | Synthesis with the temporary file unlinked whether it succeeds or fails. |
| Tool.NormalizeVoice | supertonic_text_to_speech_mcp.py:39-43 | The tool's normalization is the client's. |
| Tool.Catch | supertonic_text_to_speech_mcp.py:234-241 | A ConnectionError is a connection failure at the base URL. Any other request exception is a failed request. Any other ValueError is reported as itself. Anything else is unexpected. |
| Tool.ToolPayload | supertonic_text_to_speech_mcp.py:153-158 | Always sends a voice ending in `.json`: the given non-empty one normalized, else `M1.json`. Step count and speed default to the tool's constants. |
| Tool.ToolAlwaysSendsVoice | supertonic_text_to_speech_mcp.py:157 | Unlike the client, which drops an empty voice, the tool sends `M1.json`. |
| Tool.FinalVoices | supertonic_text_to_speech_mcp.py:201 | Non-empty voice styles are used as given. Otherwise every text gets the single voice or `M1`. |
| Tool.ToolBatchRequests | supertonic_text_to_speech_mcp.py:203-210 | One request per text, in order, with its voice normalized. |
| Tool.BatchItemMatchesSynthesize | supertonic_text_to_speech_mcp.py:203-210 | A batch item with a non-empty voice is the request synthesize mode would send. |
| Tool.ToolOutputPath | supertonic_text_to_speech_mcp.py:222-223 | The tool names its batch files exactly as the client does. |
| Tool.ToolConvertEffect | supertonic_text_to_speech_mcp.py:45-69 | A failed conversion changes nothing, and no file but the target changes. |
| Tool.ToolConvertReports | supertonic_text_to_speech_mcp.py:50-67 | A `.wav` target is written as is with "Saved WAV audio to …". Other formats report the upper-cased format name. |
| Tool.ConvertChangesOnlyTarget | supertonic_text_to_speech_mcp.py:45-69 | Outside the target, the files after conversion are the files before. |
| Tool.ToolConvertWritesWav | supertonic_text_to_speech_mcp.py:50-52 | A successful `.wav` conversion stores the audio itself. |
| Tool.ToolConvertAudioFormat | supertonic_text_to_speech_mcp.py:45-69 | The method changes the files exactly as `ToolConvertEffect` says. |
| Tool.PlayAudio | supertonic_text_to_speech_mcp.py:30-37 | Playback starts exactly when the player raises nothing, and reports the file's base name. |
| Tool.PlaybackLeavesNoFile | supertonic_text_to_speech_mcp.py:166-182 | Playback through a temporary file leaves the files exactly as before. |
| Tool.PlaybackReportsPlayback | supertonic_text_to_speech_mcp.py:166-177 | Playback of a `.wav` temporary file succeeds with the player's report. |
| Tool.DeliveryRouting | supertonic_text_to_speech_mcp.py:165-191 | Playback wins. Otherwise a save path gets the audio and is the reported `file_path`, and only it can change. Otherwise the base64 text is returned and nothing changes. |
| Tool.ToolConverterChangesOnlyTarget | supertonic_text_to_speech_mcp.py:45-69 | The conversion changes no file but its target. |
| Tool.ToolConverterStoresWav | supertonic_text_to_speech_mcp.py:50-52 | Converting to a `.wav` target stores the audio itself. |
| Tool.SaveAllPaths | supertonic_text_to_speech_mcp.py:217-226 | A successful save loop reports every output path, in order. |
| Tool.SaveAllKeeps | supertonic_text_to_speech_mcp.py:217-226 | A file that is not an output path is untouched by the save loop. |
| Tool.SaveAllContents | supertonic_text_to_speech_mcp.py:220-225 | After a successful loop, each output path holds the decoded audio of its item. |
| Tool.SaveAllStopsAtFirstFailure | supertonic_text_to_speech_mcp.py:220-225 | With distinct output paths and a conversion that changes only its target, a failed loop stops at the first failing item k. The items before k decode and convert without error. On the files they leave, item k fails to decode, or converting it raises the returned error and gives the final files. The output files of the items after k are unchanged. |
| Tool.Base64List | supertonic_text_to_speech_mcp.py:228 | The inline list holds every item's base64 text in order. One item without it is a KeyError. |
| Tool.BatchSavesEveryResult | supertonic_text_to_speech_mcp.py:217-226 | A successful batch with a save directory leaves each `output_<i+1>.wav` holding result i decoded. |
| Tool.BatchStopsAtFirstFailure | supertonic_text_to_speech_mcp.py:217-226 | A batch with a save directory that fails after its reply arrived stops at the first failing result k. The results before k decode and are saved without error. The error is result k's decoding error, or the error of converting it on the files the earlier saves left. The output files of the later results are unchanged. |
| Tool.BatchMessageCountsResults | supertonic_text_to_speech_mcp.py:226 | The batch message counts the results, and `file_paths` lists the output paths in order. |
| Tool.BatchArgumentError | supertonic_text_to_speech_mcp.py:195-199 | A batch is rejected exactly when texts are missing or empty, or non-empty voice styles differ in number. Missing texts are reported first. |
| Tool.UnreachableServerReported | supertonic_text_to_speech_mcp.py:234-235 | In every mode that reaches a request, an unreachable server is reported as a connection failure at the base URL without trailing slashes. Exactly one request was tried and no file changes. |
| Tool.ModeUnreachable | supertonic_text_to_speech_mcp.py:143-215 | Every mode that reaches a request fails with ConnectionError against an unreachable server, after one request and with no file changed. |
| Tool.SynthesizeUnreachable | supertonic_text_to_speech_mcp.py:160-161 | Synthesize mode fails at its one request and changes no file. |
| Tool.BatchUnreachable | supertonic_text_to_speech_mcp.py:213-214 | Batch mode fails at its one request and changes no file. |
| Tool.ArgumentErrorsSendNothing | supertonic_text_to_speech_mcp.py:149-232 | A missing text or texts, mismatched voice styles, or an unknown mode is reported as that ValueError. Nothing is sent and no file changes. |
| Tool.PlayThroughTemp | supertonic_text_to_speech_mcp.py:166-182 | The playback code has exactly the effect of `PlaybackEffect`, on a name that did not exist. |
| Tool.Deliver | supertonic_text_to_speech_mcp.py:165-191 | Delivery of synthesized audio has exactly the effect of `DeliverAudio`. |
| Tool.SynthesizeMode | supertonic_text_to_speech_mcp.py:149-191 | Synthesize mode has exactly the result, files and requests of `SynthesizeModeEffect`. |
| Tool.HandleReply | supertonic_text_to_speech_mcp.py:161-191 | The handling of the reply has exactly the effect of `ReplyEffect`. |
| Tool.SaveAll | supertonic_text_to_speech_mcp.py:217-226 | The save loop has exactly the effect of `SaveAllFrom` over the batch's output paths. |
| Tool.BatchMode | supertonic_text_to_speech_mcp.py:194-229 | Batch mode has exactly the result, files and requests of `BatchModeEffect`. |
| Tool.HealthMode | supertonic_text_to_speech_mcp.py:143-146 | Sends one GET to `/health` and returns the server's JSON. |
| Tool.HealthDispatch | supertonic_text_to_speech_mcp.py:143-146 | Health mode sends only the health request and touches no file. |
| Tool.SynthesizeDispatch | supertonic_text_to_speech_mcp.py:149-191 | Synthesize mode's outcome is reported through the exception mapping. |
| Tool.BatchDispatch | supertonic_text_to_speech_mcp.py:194-229 | Batch mode's outcome is reported through the exception mapping. |
| Tool.HealthCall | supertonic_text_to_speech_mcp.py:136-146 | A health call returns the reported health result after one GET. |
| Tool.SynthesizeCall | supertonic_text_to_speech_mcp.py:136-191 | A synthesize call reports synthesize mode's outcome with its files and requests. |
| Tool.BatchCall | supertonic_text_to_speech_mcp.py:136-229 | A batch call reports batch mode's outcome with its files and requests. |
| Tool.TextToSpeech | supertonic_text_to_speech_mcp.py:136-241 | One call of the tool has exactly the result, files and requests of `ToolEffect`. The tool never raises. |

## Left out

- HTTP is an oracle `server: HttpRequest -> Exchange`: one answer per request, and no retries, streaming or headers. `Session.timeout` is recorded but never enforced, as in the source, where `requests` ignores that attribute.
- base64 decoding is an oracle `decode`. Its failure is a ValueError, as `binascii.Error` is.
- pydub and ffmpeg are an oracle `Codec`. A failing export is modelled as leaving the target untouched, although a real encoder may leave a partial file.
- Audio playback (`play_audio` in `inference.py`, `_play_audio` in the tool, and sounddevice/soundfile) is an oracle `play`. `main` ignores its result, so only the file effects around it are modelled.
- The python-dotenv branch of `_load_env` is not modelled. Only the manual fallback parser is.
- `float()` parsing of DEFAULT_SPEED is an oracle. Speed is a `real`, and NaN and infinities are not modelled.
- A `.env` line with an empty key (`=value`) sets `os.environ[""]`, which the operating system may reject. The model simply stores it.
- Case mapping in `lower()`/`upper()` is ASCII only.
- Text.ParseInt: only ASCII digits are accepted. Python's `int()` also accepts other Unicode decimal digits, such as full-width digits, which the model rejects.
- Tool.Catch: in `requests`, `ConnectTimeout` is both a `ConnectionError` and a `Timeout`, so the tool reports it as a connection failure. The model's `Timeout` is never a connection error, so a `TimedOut` answer of the server oracle stands for a read timeout only, reported as a failed request.
- Paths are plain strings: `pathlib` normalization, `..`, trailing separators and Windows separators are not modelled.
- Directory creation (`os.makedirs`, `Path.mkdir`) is not modelled. Directories are assumed to exist, so those calls cannot fail in the model.
- Temporary-file names come from `FileSystem.CreateTemp`, which picks an unused name. The model does not model `mkstemp`'s randomness or a directory without free names.
- The argparse parser, `print` output and `sys.exit` are not modelled. `main` returns its exit status, and a `parser.error` is exit status 2.
- Cli.HealthRun: the four fields `main` prints from a health reply are not modelled. The model exits 0 on any JSON reply, whereas a reply missing one of those keys exits 1.
- `repr` quoting in `str(KeyError)` is rendered as single quotes around the key only.
- A DEFAULT_FORMAT containing '/' or '.' is outside the extension lemmas, which require a plain format name.
- Context managers (`with SupertonicClient`, `with requests.Session()`) are modelled by explicit `Close` calls.
- The MCP registration (`@mcp.tool()`) and `async` execution are not modelled.
- The import-time probing of pydub and the playback backend is not modelled: pydub's availability and import error are fields of `Codec`.
- `inference-examples.py` is not part of this model.
- Messages are carried as structured values. `Io.Message`, `Io.ProblemMessage`, `Tool.ErrorMessage` and `Tool.PlaybackText` render them with the source's texts. Only errno 2 and 13 of OSError are modelled.
- The per-item conversion in the two batch loops is passed as a function value (`Client.Saver`, `Tool.Converter`). The lemmas about the loops hold for any conversion that changes only its target, and the client's and tool's conversions are proved to be such.

## Findings

| source | as written | input that shows it | evidently intended | confidence | as-written member | corrected member |
|---|---|---|---|---|---|---|
| inference.py:471-528 | With `--play` and no `-o`, `main` creates the temporary output file before checking quality and speed. It unlinks the file only after a successful synthesis. | `--play --quality 0 "hi"` exits 2 with the empty temporary file left behind. `--play "hi"` against a server that cannot be reached exits 1 with it left behind. | Check the arguments before creating the file, and unlink it in a `finally` so every outcome removes it. | not executed | Cli.MainLeaksTempOnUsageError (and Cli.MainLeaksTempOnServerError, over Cli.RunMain) | Cli.CorrectedMainLeavesNoTemp (over Cli.RunMainCorrected) |
