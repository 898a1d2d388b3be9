/**
 * The collaborators the client's decision logic talks to, reduced to what that
 * logic can observe: the Python exceptions it raises or catches, the JSON it
 * sends and receives, an HTTP session whose answers come from an oracle and
 * which logs every request it sends, and a file system of named byte strings.
 */
module Io {
  import opened Wrappers
  import opened Text

  type Bytes = seq<bv8>

  /** The exceptions that reach the client's code. */
  datatype Exception =
    | ConnectionError(msg: string)         // requests.exceptions.ConnectionError
    | Timeout(msg: string)                 // requests.exceptions.Timeout
    | HttpError(status: int, msg: string)  // raised by raise_for_status()
    | InvalidJson(msg: string)             // requests.exceptions.JSONDecodeError from response.json()
    | ValueError(msg: string)              // raised by the client itself, or binascii.Error from b64decode
    | KeyError(key: string)                // a missing key in the decoded JSON
    | PydubMissing(extension: string, importError: string)  // the ImportError raised when pydub cannot be imported
    | ArgumentError(problem: Problem)      // a ValueError the tool raises over its own arguments
    | OSError(errno: Errno, filename: string)
    | CodecError(msg: string)              // whatever pydub / ffmpeg raise

  /** The two OSErrors the file operations raise: EACCES (13) and ENOENT (2). */
  datatype Errno = PermissionDenied | NoSuchFile

  /** `isinstance(e, requests.exceptions.RequestException)` */
  predicate IsRequestException(e: Exception) {
    e.ConnectionError? || e.Timeout? || e.HttpError? || e.InvalidJson?
  }

  /**
   * `isinstance(e, ValueError)`: requests' JSONDecodeError derives from both
   * RequestException and ValueError, and binascii.Error derives from ValueError.
   */
  predicate IsValueError(e: Exception) {
    e.ValueError? || e.InvalidJson? || e.ArgumentError?
  }

  /** `str(e)` */
  function Message(e: Exception): string {
    match e
    case KeyError(key) => "'" + key + "'"
    case PydubMissing(extension, importError) => PydubMissingMessage(extension, importError)
    case ArgumentError(problem) => ProblemMessage(problem)
    case OSError(errno, filename) =>
      (if errno == PermissionDenied then "[Errno 13] Permission denied: '" else "[Errno 2] No such file or directory: '")
      + filename + "'"
    case _ => e.msg
  }

  /** The text of the `ImportError` for a missing pydub; the import error is quoted only when there is one. */
  function PydubMissingMessage(extension: string, importError: string): string
  {
    "Converting to " + extension + " format requires pydub. Install with:\n  pip install pydub\n"
    + (if importError != "" then "\nActual import error: " + importError + "\n" else "")
    + "For MP3 support, you also need ffmpeg:\n"
    + "  Windows: choco install ffmpeg  OR  download from https://ffmpeg.org/\n"
    + "  Linux: sudo apt-get install ffmpeg\n"
    + "  Mac: brew install ffmpeg"
  }

  /** What is wrong with the arguments of a call of the text-to-speech tool. */
  datatype Problem = TextRequired | TextsRequired | LengthsDiffer | InvalidMode(mode: string)

  /** The text of the ValueError raised for `problem`. */
  function ProblemMessage(problem: Problem): string {
    match problem
    case TextRequired => "The 'text' parameter is required for 'synthesize' mode."
    case TextsRequired => "The 'texts' parameter is required for 'batch_synthesize' mode."
    case LengthsDiffer => "Length of 'texts' and 'voice_styles' must match."
    case InvalidMode(mode) =>
      "Invalid mode '" + mode + "'. Must be one of 'health', 'synthesize', 'batch_synthesize'."
  }

  // ---------------------------------------------------------------------------
  // The wire protocol
  // ---------------------------------------------------------------------------

  /** One synthesis request: `{"text", "total_step", "speed"}` and, if present, `"voice_style"`. */
  datatype SynthRequest = SynthRequest(text: string, totalStep: int, speed: real, voiceStyle: Option<string>)

  /** The JSON body of a POST: one request to `/synthesize`, or `{"requests": [...]}` to `/batch`. */
  datatype Body = SynthesizeBody(request: SynthRequest) | BatchBody(requests: seq<SynthRequest>)

  datatype HttpRequest = Get(url: string) | Post(url: string, body: Body)

  /** One entry of a batch reply's `results` list, with its `audio_base64` key if present. */
  datatype Item = Item(audioBase64: Option<string>)

  /** A decoded JSON reply, with the `audio_base64` and `results` keys the client reads, if present. */
  datatype Reply = Reply(audioBase64: Option<string>, results: Option<seq<Item>>)

  /** What happens on the wire for one request: no connection, a timeout, or an HTTP answer whose body may not be JSON. */
  datatype Exchange =
    | Unreachable(reason: string)
    | TimedOut(reason: string)
    | Answered(status: int, reason: string, body: Option<Reply>)

  /**
   * The answer to one request as the client sees it: the request itself, then
   * `response.raise_for_status()` (any status from 400 to 599), then `response.json()`.
   */
  function Receive(x: Exchange): (r: Result<Reply, Exception>)
    ensures r.Success? <==> x.Answered? && !(400 <= x.status < 600) && x.body.Some?
    ensures r.Success? ==> r.value == x.body.value
    ensures r.Failure? ==> IsRequestException(r.error)
    ensures r.Failure? && r.error.ConnectionError? <==> x.Unreachable?
    ensures r.Failure? && r.error.HttpError? <==> x.Answered? && 400 <= x.status < 600
  {
    match x
    case Unreachable(reason) => Failure(ConnectionError(reason))
    case TimedOut(reason) => Failure(Timeout(reason))
    case Answered(status, reason, body) =>
      if 400 <= status < 600 then Failure(HttpError(status, reason))
      else if body.None? then Failure(InvalidJson("Expecting value"))
      else Success(body.value)
  }

  /**
   * `base64.b64decode(reply["audio_base64"])`: a missing key is a KeyError, a
   * string the decoder rejects is a binascii.Error, which is a ValueError.
   */
  function DecodeAudio(field: Option<string>, decode: string -> Result<Bytes, string>): (r: Result<Bytes, Exception>)
    ensures r.Success? <==> field.Some? && decode(field.value).Success?
    ensures r.Success? ==> r.value == decode(field.value).value
    ensures field.None? ==> r == Failure(KeyError("audio_base64"))
    ensures r.Failure? && field.Some? ==> IsValueError(r.error) && !IsRequestException(r.error)
  {
    match field
    case None => Failure(KeyError("audio_base64"))
    case Some(text) =>
      match decode(text)
      case Failure(reason) => Failure(ValueError(reason))
      case Success(audio) => Success(audio)
  }

  /**
   * A `requests.Session`. Its answers come from `server`; `sent` logs every
   * request it has sent, so "no request was sent" is `sent == old(sent)`.
   */
  class Session {
    const server: HttpRequest -> Exchange
    var timeout: Option<int>
    var closed: bool
    ghost var sent: seq<HttpRequest>

    constructor (server: HttpRequest -> Exchange)
      ensures this.server == server && timeout.None? && !closed && sent == []
    {
      this.server := server;
      timeout := None;
      closed := false;
      sent := [];
    }

    method Send(request: HttpRequest) returns (r: Result<Reply, Exception>)
      modifies this`sent
      ensures sent == old(sent) + [request]
      ensures r == Receive(server(request))
    {
      sent := sent + [request];
      r := Receive(server(request));
    }

    method Close()
      modifies this`closed
      ensures closed
    {
      closed := true;
    }
  }

  // ---------------------------------------------------------------------------
  // The file system
  // ---------------------------------------------------------------------------

  /** `Path(path).write_bytes(data)`: refused with an OSError at a path the file system does not let us write. */
  function WriteEffect(files: map<string, Bytes>, readOnly: set<string>, path: string, data: Bytes)
    : (r: (Outcome<Exception>, map<string, Bytes>))
    ensures r.0.Pass? <==> path !in readOnly
    ensures r.0.Pass? ==> path in r.1 && r.1[path] == data
    ensures r.0.Fail? ==> r.1 == files && r.0.error.OSError?
    ensures forall p :: p != path ==> (p in r.1 <==> p in files) && (p in files ==> r.1[p] == files[p])
  {
    if path in readOnly then (Fail(OSError(PermissionDenied, path)), files)
    else (Pass, files[path := data])
  }

  /** The directory `tempfile` uses when it is given none. */
  const SystemTempDir := "/tmp"

  /** The length of the longest string in `s`. */
  ghost function MaxLength(s: set<string>): (m: nat)
    ensures forall x :: x in s ==> |x| <= m
    decreases s
  {
    if s == {} then 0
    else
      var x :| x in s;
      var rest := MaxLength(s - {x});
      if |x| > rest then |x| else rest
  }

  /** Some temporary file name is free: one longer than every name in use. */
  lemma FreshTempName(dir: string, prefix: string, ext: string, used: set<string>)
    ensures exists random: string ::
              && random != [] && Lacks(random, '/')
              && JoinPath(dir, prefix + random + "." + ext) !in used
  {
    var random := seq(MaxLength(used) + 1, _ => 'x');
    var path := JoinPath(dir, prefix + random + "." + ext);
    assert |path| > MaxLength(used);
    assert path !in used;
  }

  /** A name not in use, standing for the temporary file of a run that creates none. */
  ghost function UnusedName(files: map<string, Bytes>): (name: string)
    ensures name !in files
  {
    var name := seq(MaxLength(files.Keys) + 1, _ => 'x');
    assert |name| > MaxLength(files.Keys);
    name
  }

  /** The files, as a map from path to contents; writes to `readOnly` paths fail. */
  class FileSystem {
    var files: map<string, Bytes>
    const readOnly: set<string>

    constructor (files: map<string, Bytes>, readOnly: set<string>)
      ensures this.files == files && this.readOnly == readOnly
    {
      this.files := files;
      this.readOnly := readOnly;
    }

    method WriteBytes(path: string, data: Bytes) returns (r: Outcome<Exception>)
      modifies this`files
      ensures (r, files) == WriteEffect(old(files), readOnly, path, data)
    {
      r, files := WriteEffect(files, readOnly, path, data).0, WriteEffect(files, readOnly, path, data).1;
    }

    /**
     * `tempfile.mkstemp` / `NamedTemporaryFile(delete=False)`: a new empty file
     * `dir/<prefix><random>.<ext>` that did not exist, is writable and is none of `avoid`.
     */
    method CreateTemp(dir: string, prefix: string, ext: string, avoid: set<string>) returns (path: string)
      modifies this`files
      ensures path !in old(files) && path !in readOnly && path !in avoid
      ensures ext != [] && Lacks(ext, '/') && Lacks(ext, '.') && Lacks(prefix, '/') ==> Suffix(path) == "." + ext
      ensures files == old(files)[path := []]
    {
      FreshTempName(dir, prefix, ext, files.Keys + readOnly + avoid);
      var random: string :| random != [] && Lacks(random, '/')
        && JoinPath(dir, prefix + random + "." + ext) !in files.Keys + readOnly + avoid;
      path := JoinPath(dir, prefix + random + "." + ext);
      if ext != [] && Lacks(ext, '/') && Lacks(ext, '.') && Lacks(prefix, '/') {
        assert prefix + random + "." + ext == (prefix + random) + "." + ext;
        SuffixOfJoin(dir, prefix + random, ext);
      }
      files := files[path := []];
    }

    /** `os.unlink(path)`: an OSError when there is no such file. */
    method Unlink(path: string) returns (r: Outcome<Exception>)
      modifies this`files
      ensures path in old(files) ==> r == Pass && files == old(files) - {path}
      ensures path !in old(files) ==> r.Fail? && r.error.OSError? && files == old(files)
    {
      if path in files {
        files := files - {path};
        r := Pass;
      } else {
        r := Fail(OSError(NoSuchFile, path));
      }
    }
  }

  /**
   * pydub: whether it could be imported, the import error's text, and
   * `AudioSegment.from_wav(file).export(target, format, bitrate)` as an oracle from the
   * WAV bytes read back from the temporary file, the format name and the optional
   * bitrate to the encoded bytes, or the text of the exception pydub or ffmpeg raises.
   */
  datatype Codec = Codec(
    available: bool,
    importError: string,
    transcode: (Bytes, string, Option<string>) -> Result<Bytes, string>)
}
