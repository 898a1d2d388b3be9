/**
 * `convert_audio_format` of the command-line client: the target path's
 * extension, compared without regard to case, decides between writing the WAV
 * bytes unchanged and transcoding them with pydub through a temporary WAV file.
 */
module Audio {
  import opened Wrappers
  import opened Text
  import opened Io

  /** `Path(path).suffix.lower()` */
  function Extension(path: string): (r: string)
    ensures r != [] ==> r[0] == '.' && |r| >= 2
  {
    Lower(Suffix(path))
  }

  predicate IsWav(path: string) {
    Extension(path) == ".wav"
  }

  /** `extension[1:]`: the format name handed to the encoder. */
  function FormatName(extension: string): (r: string)
    ensures extension != [] && extension[0] == '.' ==> extension == "." + r
    ensures extension == [] ==> r == []
  {
    if extension == [] then [] else extension[1..]
  }

  /** MP3 is exported at 192 kbit/s; every other format with the encoder's default. */
  function ExportBitrate(format: string): (r: Option<string>)
    ensures r.Some? <==> format == "mp3"
    ensures r.Some? ==> r.value == "192k"
  {
    if format == "mp3" then Some("192k") else None
  }

  /** The file name `dir/<stem>.<ext>` has extension `.<ext>` in lower case, whatever the case of `ext`. */
  lemma ExtensionOfJoin(dir: string, stem: string, ext: string)
    requires stem != [] && ext != []
    requires Lacks(stem, '/') && Lacks(ext, '/') && Lacks(ext, '.')
    ensures Extension(JoinPath(dir, stem + "." + ext)) == "." + Lower(ext)
  {
    SuffixOfJoin(dir, stem, ext);
    LowerDotted(ext);
  }

  /** Lower-casing leaves the leading dot alone. */
  lemma LowerDotted(ext: string)
    ensures Lower("." + ext) == "." + Lower(ext)
  {
    assert Lower("." + ext)[0] == '.';
  }

  /**
   * `.WAV`, `.Wav` and `.wav` are all written directly; any other extension is
   * transcoded to the lower-cased extension without its dot.
   */
  lemma FormatOfJoin(dir: string, stem: string, ext: string)
    requires stem != [] && ext != []
    requires Lacks(stem, '/') && Lacks(ext, '/') && Lacks(ext, '.')
    ensures FormatName(Extension(JoinPath(dir, stem + "." + ext))) == Lower(ext)
    ensures IsWav(JoinPath(dir, stem + "." + ext)) <==> Lower(ext) == "wav"
  {
    ExtensionOfJoin(dir, stem, ext);
    DottedFormat(Lower(ext));
  }

  /** A file named `<stem>.wav` in any directory is written as WAV. */
  lemma WavOfJoin(dir: string, stem: string)
    requires stem != [] && Lacks(stem, '/')
    ensures IsWav(JoinPath(dir, stem + ".wav"))
  {
    assert stem + "." + "wav" == stem + ".wav";
    FormatOfJoin(dir, stem, "wav");
    LowerWav();
  }

  lemma LowerWav()
    ensures Lower("wav") == "wav"
  {
    var r := Lower("wav");
    assert r[0] == 'w' && r[1] == 'a' && r[2] == 'v';
  }

  /** The format named by the extension `.<x>` is `x`, and the extension is `.wav` exactly when `x` is `wav`. */
  lemma DottedFormat(x: string)
    ensures FormatName("." + x) == x
    ensures "." + x == ".wav" <==> x == "wav"
  {
    assert ("." + x)[1..] == x;
    assert ".wav" == "." + "wav";
  }

  /**
   * `AudioSegment.from_wav(...).export(target, format=..., [bitrate=...])`:
   * an encoder failure leaves every file as it was, an encoded result is
   * written to `target` like any other write.
   */
  function ExportEffect(files: map<string, Bytes>, readOnly: set<string>, codec: Codec, wav: Bytes,
                        format: string, target: string)
    : (r: (Outcome<Exception>, map<string, Bytes>))
    ensures r.0.Pass? <==> codec.transcode(wav, format, ExportBitrate(format)).Success? && target !in readOnly
    ensures r.0.Pass? ==> r.1 == files[target := codec.transcode(wav, format, ExportBitrate(format)).value]
    ensures r.0.Fail? ==> r.1 == files
  {
    match codec.transcode(wav, format, ExportBitrate(format))
    case Failure(reason) => (Fail(CodecError(reason)), files)
    case Success(encoded) => WriteEffect(files, readOnly, target, encoded)
  }

  /** The outcome of `convert_audio_format(wav, target)` and the files afterwards. */
  function ConvertEffect(files: map<string, Bytes>, readOnly: set<string>, codec: Codec, wav: Bytes, target: string)
    : (r: (Outcome<Exception>, map<string, Bytes>))
    ensures r.0.Pass? ==> target in r.1
    ensures r.0.Fail? ==> r.1 == files
    ensures forall p :: p != target ==> (p in r.1 <==> p in files) && (p in files ==> r.1[p] == files[p])
  {
    var extension := Extension(target);
    if extension == ".wav" then WriteEffect(files, readOnly, target, wav)
    else if !codec.available then (Fail(PydubMissing(extension, codec.importError)), files)
    else ExportEffect(files, readOnly, codec, wav, FormatName(extension), target)
  }

  /** A `.wav` target receives exactly the given bytes; pydub is neither needed nor asked. */
  lemma ConvertWavIsIdentity(files: map<string, Bytes>, readOnly: set<string>, codec: Codec, wav: Bytes, target: string)
    requires IsWav(target) && target !in readOnly
    ensures ConvertEffect(files, readOnly, codec, wav, target) == (Pass, files[target := wav])
  {
  }

  /** Without pydub, a target that is not `.wav` is an `ImportError` and no file is created or changed. */
  lemma ConvertWithoutPydub(files: map<string, Bytes>, readOnly: set<string>, codec: Codec, wav: Bytes, target: string)
    requires !IsWav(target) && !codec.available
    ensures var (outcome, after) := ConvertEffect(files, readOnly, codec, wav, target);
            outcome.Fail? && outcome.error.PydubMissing? && after == files
  {
  }

  /**
   * With pydub, a target that is not `.wav` receives the encoder's output for
   * the lower-cased extension without its dot, at 192k exactly when that is mp3.
   */
  lemma ConvertTranscodes(files: map<string, Bytes>, readOnly: set<string>, codec: Codec, wav: Bytes, target: string)
    requires !IsWav(target) && codec.available && target !in readOnly
    ensures var format := FormatName(Extension(target));
            var encoded := codec.transcode(wav, format, if format == "mp3" then Some("192k") else None);
            ConvertEffect(files, readOnly, codec, wav, target)
            == if encoded.Success? then (Pass, files[target := encoded.value])
               else (Fail(CodecError(encoded.error)), files)
  {
  }

  /**
   * `convert_audio_format`. The temporary WAV file pydub reads from is created
   * in the system temporary directory and unlinked whatever happens, so the only
   * file that can change is the target.
   */
  method ConvertAudioFormat(fs: FileSystem, codec: Codec, wav: Bytes, target: string) returns (r: Outcome<Exception>)
    modifies fs
    ensures (r, fs.files) == ConvertEffect(old(fs.files), fs.readOnly, codec, wav, target)
  {
    var extension := Extension(target);
    if extension == ".wav" {
      r := fs.WriteBytes(target, wav);
    } else if !codec.available {
      r := Fail(PydubMissing(extension, codec.importError));
    } else {
      r := ExportThroughTemp(fs, codec, wav, FormatName(extension), target);
    }
  }

  /** Writes `wav` to a new temporary file, has pydub export it to `target`, and unlinks the temporary file. */
  method ExportThroughTemp(fs: FileSystem, codec: Codec, wav: Bytes, format: string, target: string)
    returns (r: Outcome<Exception>)
    modifies fs
    ensures (r, fs.files) == ExportEffect(old(fs.files), fs.readOnly, codec, wav, format, target)
  {
    ghost var before := fs.files;
    var temp := fs.CreateTemp(SystemTempDir, "tmp", "wav", {target});
    var _ := fs.WriteBytes(temp, wav);
    assert fs.files == before[temp := wav];
    // try:
    var encoded := codec.transcode(fs.files[temp], format, ExportBitrate(format));
    if encoded.Failure? {
      r := Fail(CodecError(encoded.error));
    } else {
      r := fs.WriteBytes(target, encoded.value);
    }
    // finally: the temporary file is removed and any error doing so ignored
    var _ := fs.Unlink(temp);
    if r.Pass? {
      UnlinkFreshAfterWrite(before, temp, wav, target, encoded.value);
    } else {
      assert before[temp := wav] - {temp} == before;
    }
  }

  /** Removing a file created after `files` was observed restores `files`, with any other write kept. */
  lemma UnlinkFreshAfterWrite(files: map<string, Bytes>, temp: string, data: Bytes, target: string, written: Bytes)
    requires temp !in files && temp != target
    ensures files[temp := data][target := written] - {temp} == files[target := written]
  {
  }
}
