# UnveilAI backend core, modelled in Dafny

This project models the deterministic core of the UnveilAI backend. The backend is a FastAPI service. It accepts code repositories as a git URL or a ZIP upload and keeps them in an upload directory. It computes file counts and extension statistics, lists and serves the files, and answers questions about the code through a language model. It can speak the answer as an audio file, and it can place telephone calls that explain code through the Bland AI telephony API.

The model covers these parts:

- **Repository store** (`repository_service.dfy`). The upload directory is a map from repository id to the tree of files below it. A file record carries its directory segments, its name, its size and its text. The class `RepositoryStore` owns that map and the set of uploaded archives, and its methods update them in place.
  - The walk and the extension statistics are a loop, specified by functions: `StatKey`, `Counter` and `LanguageStats`.
  - Paths follow pathlib's `/` and `os.path.splitext` (`pypath.dfy`). A joined path is followed segment by segment, as the operating system does: `..` steps up only out of a directory that exists. Everything outside the upload directory is an input `Host`: the working directory's location, and what every other location names. So the model shows what a path that leaves a repository reads, also when that path is absolute.
- **Repository endpoints** (`repositories_api.dfy`). The create dispatch with its three rejections, the background jobs, the placeholder lookups, and the exception-to-status mapping.
- **Prompts** (`gemini_service.dfy`). The two prompts sent to the language model, part by part. The model call is a function from prompt to reply.
- **Questions** (`questions_api.dfy`). Reading the optional code context, asking, parsing the reply or falling back to the raw text, speaking it, and storing the shaped response in the question.
- **Audio** (`voice_service.dfy`, `audio_api.dfy`). File names, URLs, the media-type table, serving and deletion over the set of files in the audio directory. gTTS and pydub are outside calls; whether the file was saved and the measured duration are inputs. The model adds gTTS's own refusal of an empty text.
- **Telephony** (`bland_call_service.dfy`, `phone_calls_api.dfy`). The requests sent to Bland AI: URL, headers and the payload built by conditional insertions. Also how replies become ids, call data or errors, the call planning, the error-detail rewrite, the status sentinel and the configuration report. HTTP is a function `send` from request to reply. The methods return the requests they sent, so contracts can say what went over the wire.
- **Records** (`models.dfy`). The enums with their string values, and the records with their defaults.

Outside calls are parameters:

- git and `extractall`: the tree they leave, or None when they raise;
- `json.loads`: an `Option<Json>`;
- the model call: `string -> Option<string>`;
- gTTS and pydub: as described under Audio;
- `uuid4`: a token string;
- httpx: `send`.

The text of `str(e)` for an exception whose message the code does not write itself stays abstract. It is either the `StrOf(cause)` detail or an input function `strOf`.

## Model

| member | source | states |
|---|---|---|
| PyPath.SplitExt | app/services/repository_service.py:123 | `splitext`: root and extension concatenate back to the path. The extension is empty or one dot followed by no other dot or slash. It is non-empty exactly when the last dot comes after the last slash with a non-dot character before it in the final component, so dot-files have none. |
| PyPath.ExtensionOfChild | app/services/repository_service.py:119-123 | The extension of `root + "/" + file` is the extension of `file`, whatever the directory is called. |
| PyPath.ExtensionAppended | app/services/voice_service.py:37 | A name built as `stem + "." + ext` has the extension `"." + ext` when the stem is a proper stem and `ext` holds no dot or slash. |
| PyPath.ExtensionLower | app/api/endpoints/audio.py:49 | Taking the extension and lower-casing commute. |
| PyPath.Child | app/services/repository_service.py:198-199 | pathlib `/`: a name starting with '/' replaces the base; otherwise its significant segments are appended, with `..` kept. |
| PyPath.PartsOfJoin | app/services/repository_service.py:160 | A relative path string written with '/' parses back into the segments it was written from. |
| PyPath.AbsoluteParts | app/services/repository_service.py:198-199 | A path string `/` + segments joined with '/' parses into those segments, marked absolute. |
| RepositoryService.LanguageStats | app/services/repository_service.py:123-124 | Definition: `Counter` over the keys of the files that have an extension. Its properties are the lemmas below. |
| RepositoryService.StatKey | app/services/repository_service.py:123 | The statistics key is None exactly when the path has no extension. Otherwise it is the extension without its dot, lower-cased. |
| RepositoryService.WithExtension | app/services/repository_service.py:123 | Keeps exactly the files whose `splitext` extension is non-empty. |
| RepositoryService.Counter | app/services/repository_service.py:124 | `dict(Counter(s))`: a key is present exactly when it occurs in `s`, and it maps to its number of occurrences. |
| RepositoryService.CounterTotal | app/services/repository_service.py:124 | The counts of a `Counter` sum to the length of the list counted. |
| RepositoryService.NameKeysLength | app/services/repository_service.py:123 | The key list has one entry per file with an extension. |
| RepositoryService.LanguageStatsTotal | app/services/repository_service.py:123-124 | The statistics' values sum to the number of files with a non-empty extension. |
| RepositoryService.NameKeysMembers | app/services/repository_service.py:123 | A key is in the key list exactly when some file's name yields it. |
| RepositoryService.LanguageStatsKeys | app/services/repository_service.py:123-124 | A key is in the statistics exactly when some file's extension yields it. |
| RepositoryService.DotFileHasNoKey | app/services/repository_service.py:123 | `.gitignore` is not counted. |
| RepositoryService.TrailingDotKey | app/services/repository_service.py:123 | `notes.` counts under the empty key. |
| RepositoryService.KeyAfterLastDot | app/services/repository_service.py:123 | `site.tar.GZ` counts under `gz`: only the last dot matters, and the key is lower-cased. |
| RepositoryService.StatKeyOfWalkPath | app/services/repository_service.py:119-123 | The key of the joined walk path is the key of the bare file name. |
| RepositoryService.PathKeysOfWalk | app/services/repository_service.py:116-123 | The keys of the collected walk paths are the keys of the file names, in walk order. |
| RepositoryService.AnalyzeRepository | app/services/repository_service.py:114-132 | The loop over the walk yields `file_count` equal to the number of files, and `language_stats` equal to `LanguageStats` of the tree. |
| RepositoryService.RawExtension | app/services/repository_service.py:170-171 | The listed extension is "" when there is none; otherwise the extension without its dot, case kept. |
| RepositoryService.Listing | app/services/repository_service.py:156-178 | The listing has at most one entry per file. With no filter or the empty filter it is every file's entry in walk order. |
| RepositoryService.ListingMembers | app/services/repository_service.py:157-176 | An entry is listed exactly when some file that passes the filter yields it. A truthy filter keeps the names ending in "." + filter, case-sensitively. |
| RepositoryService.FilterIsCaseSensitive | app/services/repository_service.py:123-171 | `A.PY` counts as `py` in the statistics but is not listed under the filter `py`, and its listed extension is `PY`. |
| RepositoryService.NodeAt | app/services/repository_service.py:199-205 | Definition: what `exists()` and `open()` find at a path. The walk starts at the working directory, or at `/` for an absolute path. `..` first requires the current location to be an existing directory. Locations below `uploads` are the stored trees; all others come from the host. |
| RepositoryService.WalkPlain | app/services/repository_service.py:199-201 | Following segments without `..` is looking up the location they lead to. |
| RepositoryService.FileContent | app/services/repository_service.py:186-212 | Reading `uploads/<id>/<path>`. FileNotFoundError with the code's message exactly when nothing is there. A directory gives `IsADirectory`. A file gives its whole text. |
| RepositoryService.FetchListedFile | app/services/repository_service.py:174-206 | Every file of a well-formed tree can be fetched by the relative path the listing reports, and the fetch gives its whole text. |
| RepositoryService.FetchEscapesRepository | app/services/repository_service.py:198-201 | The join is not confined: `../<other>/<path>` under one repository reads the file of another repository. |
| RepositoryService.FetchThroughMissingDirectory | app/services/repository_service.py:198-202 | `..` is followed on disk. `<d>/../<path>` is FileNotFoundError when `d` is not a directory of the repository, though `<path>` alone reads the file. |
| RepositoryService.FetchReadsHost | app/services/repository_service.py:198-206 | An absolute `file_path` replaces the repository directory in the join. Outside the upload directory it reads the host's file. |
| RepositoryService.FetchEtcPasswd | app/services/repository_service.py:198-206 | `/etc/passwd` reads the host's `/etc/passwd`, whatever the repository and the store. |
| RepositoryService.WithDirectory | app/services/repository_service.py:37-38 | `makedirs(exist_ok=True)`: the id is present afterwards, with its old tree or an empty one, and every other entry is unchanged. |
| RepositoryService.WithDirectoryIdempotent | app/services/repository_service.py:38 | Creating the directory twice is the same as creating it once. |
| RepositoryService.RepositoryStore.constructor | app/services/repository_service.py:17-23 | The store keeps the host it is given. It starts from the trees and archives already on disk, which `makedirs(exist_ok=True)` leaves in place. |
| RepositoryService.RepositoryStore.CreateRepositoryDirectory | app/services/repository_service.py:27-39 | The store becomes `WithDirectory` of the old store. The returned path is `uploads/<id>`. |
| RepositoryService.RepositoryStore.CloneGitRepository | app/services/repository_service.py:52-68 | A failed clone leaves the created directory and re-raises. A successful clone stores the tree and reports its count and statistics, with the URL as `source_url` and the status ready. |
| RepositoryService.RepositoryStore.UploadZipRepository | app/services/repository_service.py:81-102 | The archive is always removed. The outcome is ok exactly when the archive existed and extracted. A missing archive fails with the FileNotFoundError of `open`, naming its path, and a failed extraction with the zipfile error. Success stores the tree and reports count, statistics, no URL and ready. Failure leaves the created directory. |
| RepositoryService.RepositoryStore.GetRepositoryFiles | app/services/repository_service.py:149-180 | FileNotFoundError with the code's message for a missing repository; otherwise the loop yields exactly `Listing` of the tree. |
| RepositoryService.RepositoryStore.DeleteRepository | app/services/repository_service.py:224-233 | True exactly when the repository existed; afterwards it is gone and nothing else changed. |
| RepositoriesApi.ArchivePath | app/api/endpoints/repositories.py:62 | The upload is saved as `temp/<id>.zip`. |
| RepositoriesApi.Rejection | app/api/endpoints/repositories.py:45-75 | A request is rejected exactly when a git source lacks a truthy URL, a ZIP source lacks a file, or the source is neither. Each rejection carries its exact message. |
| RepositoriesApi.CreateFailure | app/api/endpoints/repositories.py:45-81 | As written: each rejection leaves through the catch-all as a 500 whose detail is `str` of the 400. |
| RepositoriesApi.CreateFailureIntended | app/api/endpoints/repositories.py:45-75 | As intended: each rejection is a 400 with its message. |
| RepositoriesApi.MissingUrlAnswers500 | app/api/endpoints/repositories.py:46-47 | A GitHub request without a URL answers 500 as written, and 400 as intended. |
| RepositoriesApi.IntendedRejectionsAreClientErrors | app/api/endpoints/repositories.py:45-75 | With the rewrapping removed every rejection is a 400. The two versions reject the same requests. |
| RepositoriesApi.CreateRepository | app/api/endpoints/repositories.py:30-81 | Rejected requests fail and schedule nothing. Otherwise a fresh record in state processing is returned, and the matching background job is scheduled. A ZIP upload is first saved to its archive path. |
| RepositoriesApi.ProcessGitRepository | app/api/endpoints/repositories.py:165-178 | On success the record becomes ready, with the clone's file count and statistics. On failure it becomes error and keeps its counts. |
| RepositoriesApi.ProcessZipRepository | app/api/endpoints/repositories.py:186-199 | The same for an archive. The record is ready exactly when the archive existed and extracted, and the archive is always removed. |
| RepositoriesApi.ListRepositories | app/api/endpoints/repositories.py:91 | Always the empty list of repositories. |
| RepositoriesApi.GetRepository | app/api/endpoints/repositories.py:101-111 | 404 exactly when the directory is missing. Otherwise a placeholder record named "Repository", from GitHub, ready, with default counts. |
| RepositoriesApi.FilesError | app/api/endpoints/repositories.py:122-126 | FileNotFoundError becomes a 404 "Repository not found"; anything else a 500 with `str(e)`. |
| RepositoriesApi.GetRepositoryFiles | app/api/endpoints/repositories.py:119-126 | 404 exactly when the repository is missing; otherwise the listing. |
| RepositoriesApi.GetFileContent | app/api/endpoints/repositories.py:134-141 | 404 "File not found" exactly when nothing is at the joined path. A directory is a 500. A file gives its text. |
| RepositoriesApi.DeleteOutcome | app/api/endpoints/repositories.py:150-157 | As written: success gives the confirmation message. A missing repository's 404 leaves through the catch-all as a 500. |
| RepositoriesApi.DeleteOutcomeIntended | app/api/endpoints/repositories.py:150-154 | As intended: a missing repository is a 404. |
| RepositoriesApi.DeleteMissingAnswers500 | app/api/endpoints/repositories.py:153-157 | Deleting a missing repository answers 500 as written and 404 as intended. Success is the same in both. |
| RepositoriesApi.DeleteRepository | app/api/endpoints/repositories.py:149-157 | The outcome is `DeleteOutcome` of whether the repository existed, and the repository is gone afterwards. |
| GeminiService.AnalyzePrompt | app/services/gemini_service.py:35-56 | Definition: the fixed head, the code, the fixed tail. |
| GeminiService.AnalyzePromptEmbedsCode | app/services/gemini_service.py:35-56 | The `analyze_code` prompt is the fixed head, the code verbatim, and the fixed tail. Cutting head and tail off gives the code back. |
| GeminiService.AnalyzeCode | app/services/gemini_service.py:34-63 | The reply to the prompt that embeds the code; a failing call is re-raised. |
| GeminiService.RepositoryLine | app/services/gemini_service.py:84-88 | "Repository: " + name, or "Unknown" when there is no name, then " - " + description only when the description is non-empty. |
| GeminiService.PromptParts | app/services/gemini_service.py:82-109 | There are three parts, plus one for repository info and one for a truthy context. The preamble is first and the repository line second when present. The context part comes just before the question. The question is second-to-last and the fixed format instruction last. |
| GeminiService.AnswerPrompt | app/services/gemini_service.py:82-112 | The appended parts, joined with blank lines, are exactly the join of `PromptParts`. |
| GeminiService.JoinAppend | app/services/gemini_service.py:112 | Joining one more part adds a blank line and that part at the end. |
| GeminiService.JoinPrepend | app/services/gemini_service.py:112 | Joining with a part in front adds that part and a blank line at the start. |
| GeminiService.PromptFrame | app/services/gemini_service.py:82-112 | Every question prompt starts with the preamble and a blank line. It ends with the question, a blank line and the format instruction. |
| GeminiService.AnswerQuestion | app/services/gemini_service.py:80-122 | The model's reply to that prompt; a failing call is re-raised. |
| QuestionsApi.CodeContext | app/api/endpoints/questions.py:73-81 | The code context is the named file's text when the question names a file that can be read. Otherwise it is nothing, and processing goes on. |
| QuestionsApi.MockInfo | app/api/endpoints/questions.py:84-87 | The repository info is "Repository <id>" with the fixed description. |
| QuestionsApi.SpokenText | app/api/endpoints/questions.py:98-120 | Text that is not JSON is spoken as it is. For a JSON object, `text_response` is spoken, or "No response generated" when absent. Processing stops when it is not a string, or when the JSON is not an object. |
| QuestionsApi.Shape | app/api/endpoints/questions.py:107-125 | The stored response has the spoken text and the audio URL. A plain-text reply gets empty lists. Snippets and references default to empty and must be lists of objects. |
| QuestionsApi.TextOnlyReply | app/api/endpoints/questions.py:101-112 | A reply holding only `text_response` speaks that text and stores empty snippets and references. |
| QuestionsApi.Spoken | app/api/endpoints/questions.py:90-101 | Nothing is spoken when the model call fails; otherwise `SpokenText` of its reply. |
| QuestionsApi.ProcessQuestion | app/api/endpoints/questions.py:67-129 | A failed call leaves the question and the audio files untouched. Otherwise the spoken file is added when gTTS wrote it, which needs a non-empty spoken text. The response is written only when speech and shaping succeed, and then it is the shaped reply to the prompt `PromptParts` builds. |
| QuestionsApi.RecordReply | app/api/endpoints/questions.py:98-125 | After the reply: speak, then store the shaped response; any failure leaves the response as it was. |
| QuestionsApi.RepositoryCheck | app/api/endpoints/questions.py:25-27 | As written: the existence check looks at the store after the directory was created, and would be a 500 wrapping the 404. |
| QuestionsApi.RepositoryCheckIntended | app/api/endpoints/questions.py:25-27 | As intended: a 404 exactly when the repository did not exist before the request. |
| QuestionsApi.RepositoryCheckNeverFails | app/api/endpoints/questions.py:25-27 | The existence check as written passes for every store and id; the intended one rejects an unknown id. |
| QuestionsApi.CreateQuestion | app/api/endpoints/questions.py:23-43 | The directory is created. A fresh question with the given fields is always returned. Its response is the shaped reply when processing succeeds, and None otherwise. |
| QuestionsApi.GetQuestion | app/api/endpoints/questions.py:53 | Always a 404 "Question not found". |
| QuestionsApi.GetRepositoryQuestions | app/api/endpoints/questions.py:63 | Always the empty list. |
| VoiceService.AudioFileName | app/services/voice_service.py:37 | Definition: `<token>.<format value>`. |
| VoiceService.AudioUrl | app/services/voice_service.py:17-50 | The URL is "/api/audio/files/" + filename, and the filename can be read back after that prefix. |
| VoiceService.AudioFilePath | app/services/voice_service.py:69 | The file path is the audio directory joined with the name as given. |
| VoiceService.AudioFilePathNotConfined | app/services/voice_service.py:69 | "../name" resolves outside the audio directory. |
| VoiceService.VoiceService.constructor | app/services/voice_service.py:15-20 | The audio directory starts with the files already on disk, which `makedirs(exist_ok=True)` leaves in place. |
| VoiceService.VoiceService.GenerateAudio | app/services/voice_service.py:35-57 | The file `token.<format>` is added exactly when gTTS wrote it: it was saved and the text is non-empty, since gTTS rejects an empty text first. The result is ok exactly when it was written and its duration read. It carries the file's URL, the duration in seconds and the format; each failure is re-raised. |
| VoiceService.VoiceService.Exists | app/api/endpoints/audio.py:45 | Definition: the file is in the audio directory. |
| VoiceService.VoiceService.DeleteAudio | app/services/voice_service.py:81-89 | True exactly when the file was there; afterwards it is gone. |
| AudioApi.MediaType | app/api/endpoints/audio.py:49-54 | Definition: the table entry for the lower-cased `splitext` extension. |
| AudioApi.MediaTypeFor | app/api/endpoints/audio.py:50-54 | Each of `.mp3`, `.wav` and `.ogg` maps to its media type, both ways, and every other extension to `application/octet-stream`. |
| AudioApi.LowerIdempotent | app/api/endpoints/audio.py:49 | Lower-casing twice is lower-casing once. |
| AudioApi.MediaTypeIgnoresCase | app/api/endpoints/audio.py:49-54 | The media type does not depend on the case of the file name. |
| AudioApi.GeneratedMediaType | app/api/endpoints/audio.py:49-54 | The name of a generated file gets its format's media type. |
| AudioApi.AudioFileResponse | app/api/endpoints/audio.py:43-64 | 404 "Audio file not found", passed through unchanged, exactly when the file is missing. Otherwise the file is served with its media type under its own name. |
| AudioApi.GetAudioFile | app/api/endpoints/audio.py:37-66 | The endpoint's answer over the voice service's files; an error exactly when the file does not exist. |
| AudioApi.GeneratedAudioIsServed | app/api/endpoints/audio.py:43-60 | The name read off a generated URL is served once the file exists, under its format's media type. |
| AudioApi.GenerateAudio | app/api/endpoints/audio.py:19-34 | The service's response, field by field; each failure becomes a 500. |
| AudioApi.DeleteAudioFile | app/api/endpoints/audio.py:74-78 | The answer is always "Audio file deletion scheduled". |
| Models.SourceOf | app/models/models.py:8-12 | The lookup by value is defined exactly on the four values and is inverse to `Value`. |
| Models.SourceRoundTrip | app/models/models.py:8-12 | Every source is found again by its value. |
| Models.FormatOf | app/models/models.py:64-67 | The lookup by value is defined exactly on the three values and is inverse to `Value`. |
| Models.FormatRoundTrip | app/models/models.py:64-67 | Every format is found again by its value. |
| Models.Repository.constructor | app/models/models.py:26-32 | The given fields, with file count 0, empty statistics and status pending. |
| Models.Repository.WithStatus | app/models/models.py:26-32 | The same, with the status given. |
| Models.ResponseWithDefaults | app/models/models.py:48-52 | No audio URL, no snippets, no references. |
| Models.Question.constructor | app/models/models.py:55-58 | The given fields and no response. |
| Models.AudioRequestWithDefaults | app/models/models.py:70-73 | MP3 and no voice. |
| Strings.Take | app/api/endpoints/phone_calls.py:55 | `s[:n]`: the first `n` characters, or the whole string when it is shorter. |
| Strings.Lower | app/services/repository_service.py:123 | `lower()` restricted to ASCII: each of `A`-`Z` becomes its lower-case letter, and every other character is kept, in place. |
| Strings.RemoveAll | app/services/bland_call_service.py:124 | `replace(" ", "")`: no space is left, and every other character occurs as often as before. A string without spaces is unchanged. |
| Strings.RemoveAllOne | app/services/bland_call_service.py:124 | On one character, `replace(" ", "")` drops it exactly when it is a space. |
| Strings.RemoveAllConcat | app/services/bland_call_service.py:124 | Removing from `a + b` is removing from `a`, then from `b`, joined. With the one-character case this fixes the result: the kept characters stay in their order. |
| Strings.DecimalValue | app/services/bland_call_service.py:185 | `str(status_code)`: the digits spell back the number, and the first digit is '0' only for 0, so there is no leading zero. |
| Strings.SplitJoin | app/services/repository_service.py:160 | Splitting a '/'-joined path at '/' gives the segments back. |
| Json.Get | app/api/endpoints/questions.py:101-111 | `d.get(key, default)`: the stored value when the key is present, the default otherwise. |
| Json.Objects | app/models/models.py:51-52 | A `List[Dict]` field accepts exactly an array of objects, and its elements are those objects in order. |
| Errors.Message | app/services/bland_call_service.py:78-188 | The texts the code writes for the wrapped telephony errors, and the not-found message. |
| Errors.Str | app/api/endpoints/phone_calls.py:96 | `str(e)` is the written message when there is one, and the outside rendering otherwise. |
| Errors.Internal | app/api/endpoints/audio.py:34 | The catch-all: a 500 whose detail is `str(e)`. |
| Errors.BlandMessagesDistinct | app/services/bland_call_service.py:78-188 | The message of an HTTP status error never equals that of a connection error. |
| BlandCallService.Success | app/services/bland_call_service.py:59 | Definition: `raise_for_status` passes exactly on a 2xx status. |
| BlandCallService.Headers | app/services/bland_call_service.py:36-39 | Exactly two headers: `authorization` holding the raw key, and JSON content type. |
| BlandCallService.ExtractKnowledgeBaseId | app/services/bland_call_service.py:66-74 | Returns `vector_id` when present, otherwise `id` when present. Otherwise it is the ValueError, exactly when both are missing. |
| BlandCallService.KnowledgeBaseOutcome | app/services/bland_call_service.py:49-84 | A transport failure is re-raised. A non-2xx status becomes "Bland API error creating knowledge base: <code> - <text>". A decoded object goes to the id extraction. |
| BlandCallService.CallOutcome | app/services/bland_call_service.py:170-191 | The call data exactly when the status is 2xx and the body decodes. A non-2xx status becomes "Bland API error: <code> - <text>", and a transport failure "Connection error: ...". |
| BlandCallService.StatusOutcome | app/services/bland_call_service.py:205-220 | The status data exactly when the status is 2xx and the body decodes; any failure is re-raised. |
| BlandCallService.PayloadFor | app/services/bland_call_service.py:133-163 | Definition: the payload has no key beyond the ten known ones. The string fields are present exactly when truthy, the flags exactly when true, and `tools` exactly when non-empty. |
| BlandCallService.PayloadUnique | app/services/bland_call_service.py:133-163 | The arguments determine the payload: two payloads that satisfy `PayloadFor` for the same arguments are the same map. |
| BlandCallService.DefaultPayload | app/services/bland_call_service.py:86-163 | With the keyword defaults the payload is the number and `language: en-US` only; false flags are left out. |
| BlandCallService.BuildPayload | app/services/bland_call_service.py:133-163 | The payload always has `phone_number`, and it has nothing outside the ten known keys. Each string field is present exactly when truthy. Each flag is present, as true, exactly when true. `tools` is present exactly when non-empty. |
| BlandCallService.AddTexts | app/services/bland_call_service.py:133-147 | The first five insertions: the number and each truthy string field, nothing else. |
| BlandCallService.AddSettings | app/services/bland_call_service.py:149-163 | The remaining insertions add only setting keys, keep every earlier field, and follow the same presence rules. |
| BlandCallService.TextPartKept | app/services/bland_call_service.py:149-163 | Adding only setting keys keeps the string fields as they were. |
| BlandCallService.BlandService.constructor | app/services/bland_call_service.py:12-14 | The service keeps the key and the URL it is given. |
| BlandCallService.BlandService.KnowledgeBaseRequest | app/services/bland_call_service.py:36-53 | A POST to `<api_url>/knowledgebases` with the headers, carrying name, description and text. |
| BlandCallService.BlandService.StatusRequest | app/services/bland_call_service.py:205-213 | A GET to `<api_url>/calls/<call_id>` with the headers and no body. |
| BlandCallService.BlandService.CreateKnowledgeBase | app/services/bland_call_service.py:17-84 | Sends exactly the knowledge-base request and returns `KnowledgeBaseOutcome` of its reply. |
| BlandCallService.BlandService.MakePhoneCall | app/services/bland_call_service.py:86-191 | POSTs to `<api_url>/calls` with the headers. The body is `PayloadFor` the arguments, with every space removed from the number. Returns `CallOutcome` of the reply. |
| BlandCallService.BlandService.GetCallStatus | app/services/bland_call_service.py:193-220 | Sends exactly the status request and returns `StatusOutcome` of its reply. |
| BlandCallService.CallErrorsDistinct | app/services/bland_call_service.py:183-188 | A failed call status and a failed connection never give the same message. |
| PhoneCallsApi.RequestedKnowledgeBase | app/api/endpoints/phone_calls.py:22 | The requested id is truthy exactly when it is a non-empty string. |
| PhoneCallsApi.Precheck | app/api/endpoints/phone_calls.py:24-29 | A 400 with the code's message exactly when a knowledge base is wanted but its name or description is missing. |
| PhoneCallsApi.KnowledgeBaseAfter | app/api/endpoints/phone_calls.py:22-42 | The requested id when nothing is created. Otherwise the created id, or nothing when creation failed, because that failure is swallowed. |
| PhoneCallsApi.PlannedTask | app/api/endpoints/phone_calls.py:45-56 | The caller's instructions, unless a text was given and no usable knowledge base exists. Then it is the instructions, or the default task, followed by the heading, the first 5000 characters of the text and "\n\n...". |
| PhoneCallsApi.PlannedTools | app/api/endpoints/phone_calls.py:61-63 | `[id]` exactly when the id is truthy, otherwise None. |
| PhoneCallsApi.FallbackTaskIsTruthy | app/api/endpoints/phone_calls.py:48-56 | The fallback task is never empty. Its length is bounded by the instructions, the default task, the heading, 5000 characters and the trailer. |
| PhoneCallsApi.InstructionsCheck | app/api/endpoints/phone_calls.py:45-69 | The second 400 is raised exactly when there are no instructions, no text and no usable knowledge base. |
| PhoneCallsApi.ToolsOrPreview | app/api/endpoints/phone_calls.py:48-63 | With a text given, either the knowledge base goes in `tools` or the preview goes into the `task` field. |
| PhoneCallsApi.ErrorDetail | app/api/endpoints/phone_calls.py:96-98 | A detail mentioning `vector_id` becomes the fixed knowledge-base message; any other detail is kept. |
| PhoneCallsApi.NoUnderscoreNoVectorId | app/api/endpoints/phone_calls.py:97 | A text without '_' never mentions `vector_id`. |
| PhoneCallsApi.ErrorDetailIdempotent | app/api/endpoints/phone_calls.py:96-98 | Rewriting the detail twice gives the same as rewriting it once. |
| PhoneCallsApi.CallFailure | app/api/endpoints/phone_calls.py:92-100 | Every exception, the code's own 400s included, answers 500 with the rewritten `str(e)`. |
| PhoneCallsApi.Reply | app/api/endpoints/phone_calls.py:85-90 | The response exactly when the call data is an object with `call_id` and `status`. It carries the number as the caller wrote it, not the cleaned one, and the final knowledge-base id. |
| PhoneCallsApi.MakePhoneCall | app/api/endpoints/phone_calls.py:20-100 | A failed precheck sends nothing. A wanted knowledge base is requested first, with the request's fields. The call is sent only when a task or a knowledge base exists, with the planned task and tools. Every failure is a 500. |
| PhoneCallsApi.CreationFailureFallsBack | app/api/endpoints/phone_calls.py:38-63 | A failed knowledge-base creation never stops the call: no tools are sent, and the `task` field is non-empty. |
| PhoneCallsApi.CheckBlandConfig | app/api/endpoints/phone_calls.py:121-146 | An empty key is reported first, then an empty URL. Otherwise ok, with the URL, "key set", and a preview. The preview is the first five characters + "..." exactly when the key is longer than five. |
| PhoneCallsApi.PreviewMasksKey | app/api/endpoints/phone_calls.py:139-140 | The preview is eight characters: five from the start of the key, then "...". |
| PhoneCallsApi.GetCallStatus | app/api/endpoints/phone_calls.py:102-117 | The id "config-status" answers with the configuration report and sends nothing. Any other id sends the status request; its data is the answer, and a failure is a 500. |

## Left out

- I/O is modelled by the trees it operates on, not performed:
  - file trees are given as file records, walk order is the order of the sequence, and sizes are given;
  - reading with `errors='replace'` is the stored text;
  - `delete_repository` and `delete_audio` cannot fail here, so their `except` branches returning False do not arise.
- Outside libraries are inputs:
  - git, `zipfile`, gTTS, pydub, `json.loads`, the language model and httpx;
  - `extractall` into an existing directory replaces the stored tree rather than merging with it;
  - the request timeouts are not modelled: 60 seconds for creating a knowledge base, 30 seconds for placing a call, and httpx's default for the status lookup. A request that times out is one more `RequestFailed` reply of `send`.
- Generated ids and tokens are given as strings. `uuid4` and the UUID validation of `repository_id` are not modelled.
- Strings.Lower: only the ASCII letters are lower-cased. Python's Unicode case mapping is not modelled; it changes other letters too, and can change a string's length.
- RepositoryService.StatKey: a key is lower-cased as `Strings.Lower` does. So an extension with non-ASCII capitals, such as `.É`, gets a different key than in Python. The media-type lookup is not affected, because only ASCII characters lower-case into the letters of `mp3`, `wav` and `ogg`.
- Symbolic links and permissions are not modelled. The host is any function from locations to what they name; it is not required to be consistent, for example a file below a location that is missing.
- The `created_at` and `updated_at` timestamps of `Repository` and `Question` are left out, because no property depends on the clock.
- `status` is a free string in the source, but a datatype with the four values the code writes in the model.
- The text of the `ValueError` about a missing `vector_id` is written by the code, but it renders the reply dictionary with Python's `repr`, so it stays abstract. That error is swallowed by the endpoint in any case.
- Ids that pathlib treats specially are not distinguished. An id of "", "." or ".." is modelled as a plain directory name.
- Background tasks:
  - a scheduled job is returned as a value, and the job methods model what it does when it runs;
  - `delete_audio_file` only answers, so its deletion is `VoiceService.DeleteAudio`.
- Logging is left out. So is `GeminiService.__init__` with its SDK configuration.
- JSON numbers are integers; floats are not represented.
- Number formats:
  - `duration_seconds` is a real, `ms / 1000`;
  - the status code in the Bland error messages is rendered in decimal.
- The `str(e)` text of FastAPI's `HTTPException`, of Python's own exceptions and of library exceptions is abstract.
- "Unsupported repository source: ..." renders the enum as its value. How an f-string renders a `str` enum varies between Python versions.
- `create_knowledge_base` on a reply that is JSON but not an object fails in the model. Python would instead run `in` on a list or a string.
- A `text_response` that is not a string stops processing. Handing it to gTTS would raise.
- Serving: `FileResponse` on a directory, and streaming the bytes, are not modelled.
- `app/api/endpoints/gemini.py` is not part of this model.
- Definitions that the source imports but does not contain: `VectorStoreItem`, `PhoneCallRequest`, `PhoneCallResponse` and `app.services.bland_service`. The request and response records are defined from the fields the endpoint reads and writes.
- `BLAND_API_KEY` and `BLAND_API_URL` are not declared in `app/core/settings.py`, so constructing `BlandService` at import would raise. The class takes the two strings as given.
- `BlandCallService.StatusOutcome`: for a non-2xx status it reports an outside failure without httpx's message text.
- `PhoneCallsApi.CheckBlandConfig`: when a setting is not declared, the message is `str` of the attribute error, left abstract.
- `PhoneCallsApi.MakePhoneCall`: the text of the 500 for the code's own 400s is the abstract `str` of the exception, passed through the `vector_id` rewrite.

## Findings

The endpoint methods follow the code as written. The intended versions are stated and proved beside them.

| source | as written | input that shows it | evidently intended | confidence | as-written member | corrected member |
|---|---|---|---|---|---|---|
| app/api/endpoints/repositories.py:46-81 | The 400 rejections are raised inside the `try`, and the catch-all turns them into a 500 with `str` of the 400. | source "github" without `source_url` | 400 "Source URL is required for GitHub/Git repositories" | not executed | RepositoriesApi.MissingUrlAnswers500 | RepositoriesApi.IntendedRejectionsAreClientErrors |
| app/api/endpoints/repositories.py:153-157 | The 404 for a missing repository is raised inside the `try`, and the catch-all turns it into a 500. | DELETE of an id with no directory | 404 "Repository not found" | not executed | RepositoriesApi.DeleteMissingAnswers500 | RepositoriesApi.DeleteOutcomeIntended |
| app/api/endpoints/questions.py:25-27 | The existence check runs after `create_repository_directory` has made the directory, so it never fails. An unknown id gets a fresh empty directory, and the question is processed. | a question for an id that has no repository | 404 "Repository not found" for an unknown repository | not executed | QuestionsApi.RepositoryCheckNeverFails | QuestionsApi.RepositoryCheckIntended |
