/**
 * app/services/voice_service.py: speech files in the audio directory and the
 * URLs they are served under. Speech synthesis (gTTS) and duration decoding
 * (pydub) are outside calls; their outcomes are inputs.
 */
module VoiceService {
  import opened Wrappers
  import opened Strings
  import opened PyPath
  import opened Errors
  import opened Models

  /** `settings.AUDIO_DIR`, `Path("./audio")`. */
  const AudioDir: FsPath := FsPath(false, ["audio"])

  /** `self.base_url`, the URL path the audio files are served under. */
  const BaseUrl: string := "/api/audio/files"

  /** `f"{uuid}.{format.value}"`. */
  function AudioFileName(token: string, format: AudioFormat): string
  {
    token + "." + format.Value()
  }

  /** `f"{self.base_url}/{filename}"`. */
  function AudioUrl(filename: string): (r: string)
    ensures r == BaseUrl + "/" + filename
    ensures r[|BaseUrl| + 1..] == filename
  {
    var r := BaseUrl + "/" + filename;
    assert r[|BaseUrl| + 1..] == filename;
    r
  }

  /** `self.audio_dir / filename`: joined as given, not checked. */
  function AudioFilePath(filename: string): (r: FsPath)
    ensures (|filename| == 0 || filename[0] != '/') ==> r == FsPath(false, ["audio"] + Parts(filename))
  {
    Child(AudioDir, filename)
  }

  /** Nothing keeps the joined path inside the audio directory: "../name" leaves it. */
  lemma AudioFilePathNotConfined(name: string)
    requires Plain(name)
    ensures Resolve([], AudioFilePath("../" + name).segments) == Some([name])
  {
    var segs := ["..", name];
    assert Join(segs, "/") == "../" + name;
    PartsOfJoin(segs);
    assert AudioFilePath("../" + name) == FsPath(false, ["audio", "..", name]);
    assert Resolve([], ["audio", "..", name]) == Resolve(["audio"], ["..", name]) by {
      assert ["audio", "..", name][1..] == ["..", name];
      assert [] + ["audio"] == ["audio"];
    }
    assert Resolve(["audio"], ["..", name]) == Resolve([], [name]) by {
      assert ["..", name][1..] == [name];
    }
    assert Resolve([], [name]) == Resolve([name], []) by {
      assert [name][1..] == [];
      assert [] + [name] == [name];
    }
  }

  /** Whether gTTS wrote the file: the outside call saved it, and gTTS's own
      check that the text is non-empty passed before anything was written. */
  predicate Writes(text: string, saved: bool)
  {
    saved && text != ""
  }

  class VoiceService {
    /** The names of the files in the audio directory. */
    var files: set<string>

    /** `makedirs(exist_ok=True)` keeps what an earlier run left in the
        audio directory: `files0` is that content. */
    constructor (files0: set<string>)
      ensures files == files0
    {
      files := files0;
    }

    /** `generate_audio`: `saved` says whether gTTS's `save` wrote the file and
        `durationMs` is what pydub measured (None when it cannot read it).
        gTTS rejects an empty text before saving. Any failure is re-raised; a
        file once saved stays. */
    method GenerateAudio(text: string, format: AudioFormat, token: string, saved: bool, durationMs: Option<nat>)
      returns (r: Result<AudioResponse, Failure>)
      modifies this
      ensures Writes(text, saved) ==> files == old(files) + {AudioFileName(token, format)}
      ensures !Writes(text, saved) ==> files == old(files)
      ensures r.Ok? <==> Writes(text, saved) && durationMs.Some?
      ensures !Writes(text, saved) ==> r == Err(Foreign("gTTS"))
      ensures Writes(text, saved) && durationMs.None? ==> r == Err(Foreign("pydub"))
      ensures r.Ok? ==> r.value == AudioResponse(AudioUrl(AudioFileName(token, format)),
                                                 durationMs.value as real / 1000.0, format)
    {
      var filename := AudioFileName(token, format);
      if text == "" || !saved {
        return Err(Foreign("gTTS"));
      }
      files := files + {filename};
      if durationMs.None? {
        return Err(Foreign("pydub"));
      }
      var durationSeconds := durationMs.value as real / 1000.0;
      r := Ok(AudioResponse(AudioUrl(filename), durationSeconds, format));
    }

    /** Whether `audio_dir / filename` exists, for a name taken from a URL segment. */
    predicate Exists(filename: string)
      reads this
    {
      filename in files
    }

    /** `delete_audio`: true, and the file gone, exactly when it was there. */
    method DeleteAudio(filename: string) returns (ok: bool)
      modifies this
      ensures ok == (filename in old(files))
      ensures files == old(files) - {filename}
    {
      if filename in files {
        files := files - {filename};
        ok := true;
      } else {
        ok := false;
      }
    }
  }
}
