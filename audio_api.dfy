/** app/api/endpoints/audio.py: generating, serving and deleting speech files. */
module AudioApi {
  import opened Wrappers
  import opened Strings
  import opened PyPath
  import opened Errors
  import opened Models
  import opened VoiceService

  /** The media type for an already lower-cased extension. */
  function MediaTypeFor(extension: string): (r: string)
    ensures extension == ".mp3" <==> r == "audio/mpeg"
    ensures extension == ".wav" <==> r == "audio/wav"
    ensures extension == ".ogg" <==> r == "audio/ogg"
    ensures extension !in {".mp3", ".wav", ".ogg"} <==> r == "application/octet-stream"
  {
    if extension == ".mp3" then "audio/mpeg"
    else if extension == ".wav" then "audio/wav"
    else if extension == ".ogg" then "audio/ogg"
    else "application/octet-stream"
  }

  /** The media type of a served file, from `splitext(filename)[1].lower()`. */
  function MediaType(filename: string): string
  {
    MediaTypeFor(Lower(Extension(filename)))
  }

  /** The media type each format is served with. */
  function FormatMediaType(format: AudioFormat): string
  {
    match format
    case Mp3 => "audio/mpeg"
    case Wav => "audio/wav"
    case Ogg => "audio/ogg"
  }

  lemma LowerIdempotent(s: string)
    ensures Lower(Lower(s)) == Lower(s)
  {
  }

  /** The media type does not depend on the case of the name. */
  lemma MediaTypeIgnoresCase(filename: string)
    ensures MediaType(Lower(filename)) == MediaType(filename)
  {
    ExtensionLower(filename);
    LowerIdempotent(Extension(filename));
  }

  /** A generated file is served with the media type of its format. */
  lemma GeneratedMediaType(token: string, format: AudioFormat)
    requires token != "" && '/' !in token && '.' !in token
    ensures MediaType(AudioFileName(token, format)) == FormatMediaType(format)
  {
    assert token[0] != '.';
    assert HasStem(token, 0, |token|);
    ExtensionAppended(token, format.Value());
    match format {
      case Mp3 => assert "." + format.Value() == ".mp3"; ExtensionLowerCase(".mp3");
      case Wav => assert "." + format.Value() == ".wav"; ExtensionLowerCase(".wav");
      case Ogg => assert "." + format.Value() == ".ogg"; ExtensionLowerCase(".ogg");
    }
  }

  lemma ExtensionLowerCase(e: string)
    requires e in {".mp3", ".wav", ".ogg"}
    ensures Lower(e) == e
  {
    assert forall i :: 0 <= i < |e| ==> !('A' <= e[i] <= 'Z');
  }

  /** What `FileResponse` is given. */
  datatype Served = Served(path: FsPath, mediaType: string, filename: string)

  /** `get_audio_file` on the files of the audio directory: 404 exactly when
      the file is missing (the 404 is re-raised as it is). */
  function AudioFileResponse(files: set<string>, filename: string): (r: Result<Served, HttpError>)
    ensures r.Err? <==> filename !in files
    ensures r.Err? ==> r.error == HttpError(404, Literal("Audio file not found"))
    ensures r.Ok? ==> r.value == Served(AudioFilePath(filename), MediaType(filename), filename)
  {
    if filename !in files then Err(HttpError(404, Literal("Audio file not found")))
    else Ok(Served(AudioFilePath(filename), MediaType(filename), filename))
  }

  /** `get_audio_file` endpoint. */
  function GetAudioFile(voice: VoiceService, filename: string): (r: Result<Served, HttpError>)
    reads voice
    ensures r.Err? <==> !voice.Exists(filename)
    ensures r == AudioFileResponse(voice.files, filename)
  {
    AudioFileResponse(voice.files, filename)
  }

  /** The file behind a generated URL is served, under its format's media type. */
  lemma GeneratedAudioIsServed(files: set<string>, token: string, format: AudioFormat)
    requires token != "" && '/' !in token && '.' !in token
    ensures var name := AudioUrl(AudioFileName(token, format))[|BaseUrl| + 1..];
            AudioFileResponse(files + {AudioFileName(token, format)}, name)
            == Ok(Served(AudioFilePath(name), FormatMediaType(format), name))
  {
    GeneratedMediaType(token, format);
  }

  /** `generate_audio` endpoint: the service's answer copied field by field, or
      a 500 carrying the failure. */
  method GenerateAudio(voice: VoiceService, request: AudioRequest, token: string, saved: bool, durationMs: Option<nat>)
    returns (r: Result<AudioResponse, HttpError>)
    modifies voice
    ensures Writes(request.text, saved) ==> voice.files == old(voice.files) + {AudioFileName(token, request.format)}
    ensures !Writes(request.text, saved) ==> voice.files == old(voice.files)
    ensures r.Ok? <==> Writes(request.text, saved) && durationMs.Some?
    ensures !Writes(request.text, saved) ==> r == Err(Internal(Foreign("gTTS")))
    ensures Writes(request.text, saved) && durationMs.None? ==> r == Err(Internal(Foreign("pydub")))
    ensures r.Ok? ==> r.value.audioUrl == AudioUrl(AudioFileName(token, request.format))
    ensures r.Ok? ==> r.value.format == request.format
    ensures r.Ok? ==> r.value.durationSeconds == durationMs.value as real / 1000.0
  {
    var audioData := voice.GenerateAudio(request.text, request.format, token, saved, durationMs);
    match audioData {
      case Ok(data) => r := Ok(AudioResponse(data.audioUrl, data.durationSeconds, data.format));
      case Err(f) => r := Err(Internal(f));
    }
  }

  /** `delete_audio_file` endpoint: always answers that deletion is scheduled,
      whether or not the file exists; the scheduled task is `DeleteAudio(filename)`. */
  function DeleteAudioFile(filename: string): (r: (string, string))
    ensures r.0 == "Audio file deletion scheduled"
    ensures r.1 == filename
  {
    ("Audio file deletion scheduled", filename)
  }
}
