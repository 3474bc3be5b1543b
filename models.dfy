/** The records and enumerations of app/models/models.py with their defaults. */
module Models {
  import opened Wrappers
  import opened Json

  /** Where a repository comes from; `Value` is the enum's string value. */
  datatype RepositorySource = Github | Local | Zip | Git {
    function Value(): string {
      match this
      case Github => "github"
      case Local => "local"
      case Zip => "zip"
      case Git => "git"
    }
  }

  /** The enum lookup `RepositorySource(value)`: defined exactly on the four values. */
  function SourceOf(value: string): (r: Option<RepositorySource>)
    ensures r.Some? ==> r.value.Value() == value
    ensures r.None? <==> value !in {"github", "local", "zip", "git"}
  {
    if value == "github" then Some(Github)
    else if value == "local" then Some(Local)
    else if value == "zip" then Some(Zip)
    else if value == "git" then Some(Git)
    else None
  }

  lemma SourceRoundTrip(s: RepositorySource)
    ensures SourceOf(s.Value()) == Some(s)
  {
  }

  /** The lifecycle values the code stores in `Repository.status`. */
  datatype Status = Pending | Processing | Ready | Error {
    function Value(): string {
      match this
      case Pending => "pending"
      case Processing => "processing"
      case Ready => "ready"
      case Error => "error"
    }
  }

  /** Audio container formats; `Value` is the enum's string value. */
  datatype AudioFormat = Mp3 | Wav | Ogg {
    function Value(): string {
      match this
      case Mp3 => "mp3"
      case Wav => "wav"
      case Ogg => "ogg"
    }
  }

  /** The enum lookup `AudioFormat(value)`: defined exactly on the three values. */
  function FormatOf(value: string): (r: Option<AudioFormat>)
    ensures r.Some? ==> r.value.Value() == value
    ensures r.None? <==> value !in {"mp3", "wav", "ogg"}
  {
    if value == "mp3" then Some(Mp3)
    else if value == "wav" then Some(Wav)
    else if value == "ogg" then Some(Ogg)
    else None
  }

  lemma FormatRoundTrip(f: AudioFormat)
    ensures FormatOf(f.Value()) == Some(f)
  {
  }

  /** A repository record; the background processing updates its fields in place. */
  class Repository {
    const id: string
    var name: string
    var description: Option<string>
    var source: RepositorySource
    var sourceUrl: Option<string>
    var fileCount: int
    var languageStats: map<string, nat>
    var status: Status

    /** `Repository(id=..., name=..., source=...)` with every other field defaulted. */
    constructor (id: string, name: string, description: Option<string>, source: RepositorySource, sourceUrl: Option<string>)
      ensures this.id == id && this.name == name && this.description == description
      ensures this.source == source && this.sourceUrl == sourceUrl
      ensures fileCount == 0 && languageStats == map[] && status == Pending
    {
      this.id := id;
      this.name := name;
      this.description := description;
      this.source := source;
      this.sourceUrl := sourceUrl;
      fileCount := 0;
      languageStats := map[];
      status := Pending;
    }

    /** The same, with an explicit `status=`. */
    constructor WithStatus(id: string, name: string, description: Option<string>, source: RepositorySource,
                           sourceUrl: Option<string>, status: Status)
      ensures this.id == id && this.name == name && this.description == description
      ensures this.source == source && this.sourceUrl == sourceUrl
      ensures fileCount == 0 && languageStats == map[] && this.status == status
    {
      this.id := id;
      this.name := name;
      this.description := description;
      this.source := source;
      this.sourceUrl := sourceUrl;
      fileCount := 0;
      languageStats := map[];
      this.status := status;
    }
  }

  /** The answer to a question. */
  datatype QuestionResponse = QuestionResponse(
    textResponse: string,
    audioUrl: Option<string>,
    codeSnippets: seq<map<string, Json>>,
    references: seq<map<string, Json>>)

  /** `QuestionResponse(text_response=text)`: no audio, no snippets, no references. */
  function ResponseWithDefaults(text: string): (r: QuestionResponse)
    ensures r.textResponse == text
    ensures r.audioUrl.None? && |r.codeSnippets| == 0 && |r.references| == 0
  {
    QuestionResponse(text, None, [], [])
  }

  /** A question; answering it writes `response` in place. */
  class Question {
    const id: string
    const repositoryId: string
    const question: string
    const context: Option<string>
    var response: Option<QuestionResponse>

    constructor (id: string, repositoryId: string, question: string, context: Option<string>)
      ensures this.id == id && this.repositoryId == repositoryId
      ensures this.question == question && this.context == context
      ensures response == None
    {
      this.id := id;
      this.repositoryId := repositoryId;
      this.question := question;
      this.context := context;
      response := None;
    }
  }

  datatype AudioRequest = AudioRequest(text: string, format: AudioFormat, voiceId: Option<string>)

  /** `AudioRequest(text=text)`: MP3 and no voice. */
  function AudioRequestWithDefaults(text: string): (r: AudioRequest)
    ensures r.text == text && r.format == Mp3 && r.voiceId.None?
  {
    AudioRequest(text, Mp3, None)
  }

  datatype AudioResponse = AudioResponse(audioUrl: string, durationSeconds: real, format: AudioFormat)
}
