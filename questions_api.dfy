/**
 * app/api/endpoints/questions.py: asking a question about a repository and
 * shaping the model's reply into the stored response. The model call, the
 * JSON decoder and speech synthesis are outside calls whose outcomes are inputs.
 */
module QuestionsApi {
  import opened Wrappers
  import opened Strings
  import opened Json
  import opened Errors
  import opened Models
  import opened RepositoryService
  import opened GeminiService
  import opened VoiceService

  /** The code context of a question: the named file's text when the question
      names one and it can be read; otherwise nothing, and processing goes on. */
  function CodeContext(host: Host, repos: map<string, seq<FileRecord>>, repositoryId: string, context: Option<string>): (r: Option<string>)
    ensures !Truthy(context) ==> r.None?
    ensures Truthy(context) && FileContent(host, repos, repositoryId, context.value).Ok? ==>
              r == Some(FileContent(host, repos, repositoryId, context.value).value)
    ensures Truthy(context) && FileContent(host, repos, repositoryId, context.value).Err? ==> r.None?
  {
    if !Truthy(context) then None
    else match FileContent(host, repos, repositoryId, context.value)
      case Ok(content) => Some(content)
      case Err(_) => None
  }

  /** The placeholder repository details every question is asked with. */
  function MockInfo(repositoryId: string): (r: RepositoryInfo)
    ensures r.Keys == {"name", "description"}
    ensures r["name"] == "Repository " + repositoryId && r["description"] == "Repository description"
  {
    map["name" := "Repository " + repositoryId, "description" := "Repository description"]
  }

  /** The text that is spoken: the raw reply when it is not JSON; the reply's
      `text_response` (default "No response generated") when it is a JSON
      object; nothing (processing fails) when that is not a string or the
      reply is JSON but not an object. */
  function SpokenText(raw: string, parsed: Option<Json>): (r: Option<string>)
    ensures parsed.None? ==> r == Some(raw)
    ensures parsed.Some? && !parsed.value.JObj? ==> r.None?
    ensures parsed.Some? && parsed.value.JObj? && "text_response" !in parsed.value.fields ==>
              r == Some("No response generated")
    ensures parsed.Some? && parsed.value.JObj? && "text_response" in parsed.value.fields ==>
              (r.Some? <==> parsed.value.fields["text_response"].JStr?)
              && (r.Some? ==> r.value == parsed.value.fields["text_response"].s)
  {
    match parsed
    case None => Some(raw)
    case Some(JObj(d)) =>
      (match Get(d, "text_response", JStr("No response generated"))
       case JStr(t) => Some(t)
       case _ => None)
    case Some(_) => None
  }

  /** The response the reply makes, once its text is spoken and served at
      `audioUrl`: None when `QuestionResponse` refuses the fields (snippets or
      references that are not a list of objects). */
  function Shape(parsed: Option<Json>, text: string, audioUrl: string): (r: Option<QuestionResponse>)
    ensures parsed.None? ==> r == Some(QuestionResponse(text, Some(audioUrl), [], []))
    ensures r.Some? ==> r.value.textResponse == text && r.value.audioUrl == Some(audioUrl)
    ensures parsed.Some? && parsed.value.JObj? ==>
              var d := parsed.value.fields;
              (r.Some? <==> Objects(Get(d, "code_snippets", JArr([]))).Some? && Objects(Get(d, "references", JArr([]))).Some?)
    ensures parsed.Some? && parsed.value.JObj? && "code_snippets" !in parsed.value.fields && r.Some? ==>
              r.value.codeSnippets == []
    ensures parsed.Some? && parsed.value.JObj? && "references" !in parsed.value.fields && r.Some? ==>
              r.value.references == []
    ensures parsed.Some? && parsed.value.JObj? && "code_snippets" in parsed.value.fields && r.Some? ==>
              parsed.value.fields["code_snippets"] == JArr(seq(|r.value.codeSnippets|, i requires 0 <= i < |r.value.codeSnippets| => JObj(r.value.codeSnippets[i])))
  {
    match parsed
    case None => Some(ResponseWithDefaults(text).(audioUrl := Some(audioUrl)))
    case Some(JObj(d)) =>
      (match (Objects(Get(d, "code_snippets", JArr([]))), Objects(Get(d, "references", JArr([]))))
       case (Some(snippets), Some(references)) => Some(QuestionResponse(text, Some(audioUrl), snippets, references))
       case _ => None)
    case Some(_) => None
  }

  /** A JSON object carrying only a text answer gets empty snippets and references. */
  lemma TextOnlyReply(raw: string, answer: string, audioUrl: string)
    ensures var parsed := Some(JObj(map["text_response" := JStr(answer)]));
            SpokenText(raw, parsed) == Some(answer)
            && Shape(parsed, answer, audioUrl) == Some(QuestionResponse(answer, Some(audioUrl), [], []))
  {
    var d := map["text_response" := JStr(answer)];
    assert Objects(JArr([])) == Some([]);
  }

  /** The prompt a question is asked with. */
  function QuestionPrompt(host: Host, repos: map<string, seq<FileRecord>>, repositoryId: string, question: string, context: Option<string>): string
  {
    Join(PromptParts(question, CodeContext(host, repos, repositoryId, context), Some(MockInfo(repositoryId))), "\n\n")
  }

  /** The text to be spoken for the reply to `prompt`, if processing gets that far. */
  function Spoken(generate: string -> Option<string>, parse: string -> Option<Json>, prompt: string): (r: Option<string>)
    ensures generate(prompt).None? ==> r.None?
    ensures generate(prompt).Some? ==> r == SpokenText(generate(prompt).value, parse(generate(prompt).value))
  {
    match generate(prompt)
    case None => None
    case Some(raw) => SpokenText(raw, parse(raw))
  }

  /** The stored response when speech succeeds: the shaped reply, if it validates. */
  function Answered(generate: string -> Option<string>, parse: string -> Option<Json>, prompt: string, token: string): Option<QuestionResponse>
    requires Spoken(generate, parse, prompt).Some?
  {
    var raw := generate(prompt).value;
    Shape(parse(raw), Spoken(generate, parse, prompt).value, AudioUrl(AudioFileName(token, Mp3)))
  }

  /** `_process_question`: asks the model, speaks the text and stores the
      shaped response; any failure along the way leaves `response` as it was. */
  method ProcessQuestion(store: RepositoryStore, voice: VoiceService, question: Question,
                         generate: string -> Option<string>, parse: string -> Option<Json>,
                         token: string, saved: bool, durationMs: Option<nat>)
    modifies question`response, voice
    ensures var prompt := QuestionPrompt(store.host, store.repos, question.repositoryId, question.question, question.context);
            Spoken(generate, parse, prompt).None? ==>
              question.response == old(question.response) && voice.files == old(voice.files)
    ensures var prompt := QuestionPrompt(store.host, store.repos, question.repositoryId, question.question, question.context);
            Spoken(generate, parse, prompt).Some? ==>
              voice.files == old(voice.files) + (if Writes(Spoken(generate, parse, prompt).value, saved) then {AudioFileName(token, Mp3)} else {})
    ensures var prompt := QuestionPrompt(store.host, store.repos, question.repositoryId, question.question, question.context);
            Spoken(generate, parse, prompt).Some? && !(Writes(Spoken(generate, parse, prompt).value, saved) && durationMs.Some?) ==>
              question.response == old(question.response)
    ensures var prompt := QuestionPrompt(store.host, store.repos, question.repositoryId, question.question, question.context);
            Spoken(generate, parse, prompt).Some? && Writes(Spoken(generate, parse, prompt).value, saved) && durationMs.Some? ==>
              question.response == (if Answered(generate, parse, prompt, token).Some?
                                    then Answered(generate, parse, prompt, token) else old(question.response))
  {
    ghost var prompt := QuestionPrompt(store.host, store.repos, question.repositoryId, question.question, question.context);
    var codeContext: Option<string> := None;
    if Truthy(question.context) {
      var content := FileContent(store.host, store.repos, question.repositoryId, question.context.value);
      if content.Ok? {
        codeContext := Some(content.value);
      }
    }
    assert codeContext == CodeContext(store.host, store.repos, question.repositoryId, question.context);
    assert prompt == Join(PromptParts(question.question, codeContext, Some(MockInfo(question.repositoryId))), "\n\n");
    var repositoryInfo := MockInfo(question.repositoryId);
    var rawResponse := AnswerQuestion(question.question, codeContext, Some(repositoryInfo), generate);
    assert rawResponse.Ok? <==> generate(prompt).Some?;
    if rawResponse.Err? {
      return;
    }
    var raw := rawResponse.value;
    assert raw == generate(prompt).value;
    RecordReply(voice, question, raw, parse, token, saved, durationMs);
  }

  /** The part of `_process_question` after the model has replied: speak the
      text and store the shaped response. */
  method RecordReply(voice: VoiceService, question: Question, raw: string, parse: string -> Option<Json>,
                     token: string, saved: bool, durationMs: Option<nat>)
    modifies question`response, voice
    ensures var spoken := SpokenText(raw, parse(raw));
            spoken.None? ==> question.response == old(question.response) && voice.files == old(voice.files)
    ensures var spoken := SpokenText(raw, parse(raw));
            spoken.Some? ==> voice.files == old(voice.files) + (if Writes(spoken.value, saved) then {AudioFileName(token, Mp3)} else {})
    ensures var spoken := SpokenText(raw, parse(raw));
            spoken.Some? && !(Writes(spoken.value, saved) && durationMs.Some?) ==> question.response == old(question.response)
    ensures var spoken := SpokenText(raw, parse(raw));
            spoken.Some? && Writes(spoken.value, saved) && durationMs.Some? ==>
              var shaped := Shape(parse(raw), spoken.value, AudioUrl(AudioFileName(token, Mp3)));
              question.response == (if shaped.Some? then shaped else old(question.response))
  {
    var responseData := parse(raw);
    var textResponse := SpokenText(raw, responseData);
    if textResponse.None? {
      return;
    }
    var audioData := voice.GenerateAudio(textResponse.value, Mp3, token, saved, durationMs);
    if audioData.Err? {
      return;
    }
    var shaped := Shape(responseData, textResponse.value, audioData.value.audioUrl);
    if shaped.Some? {
      question.response := shaped;
    }
  }

  /** As written: the existence check runs after `create_repository_directory`
      has made the directory, so it can never fail (and its 404 would leave as
      a 500 through the catch-all). */
  function RepositoryCheck(reposAfterCreate: map<string, seq<FileRecord>>, repositoryId: string): (r: Option<HttpError>)
    ensures r.None? <==> repositoryId in reposAfterCreate
    ensures r.Some? ==> r.value == Internal(HttpFailure(404, "Repository not found"))
  {
    if repositoryId !in reposAfterCreate then Some(Internal(HttpFailure(404, "Repository not found"))) else None
  }

  /** As intended: a 404 exactly when the repository does not exist before the request. */
  function RepositoryCheckIntended(repos: map<string, seq<FileRecord>>, repositoryId: string): (r: Option<HttpError>)
    ensures r.None? <==> repositoryId in repos
    ensures r.Some? ==> r.value == HttpError(404, Literal("Repository not found"))
  {
    if repositoryId !in repos then Some(HttpError(404, Literal("Repository not found"))) else None
  }

  /** The existence check as written passes for every store and id; the intended one
      rejects an unknown id. */
  lemma RepositoryCheckNeverFails(repos: map<string, seq<FileRecord>>, repositoryId: string)
    ensures RepositoryCheck(WithDirectory(repos, repositoryId), repositoryId).None?
    ensures repositoryId !in repos ==> RepositoryCheckIntended(repos, repositoryId).Some?
  {
  }

  /** `create_question`: the directory is created, the existence check passes, the
      question is processed synchronously and returned, answered or not. */
  method CreateQuestion(store: RepositoryStore, voice: VoiceService, id: string, repositoryId: string,
                        questionText: string, context: Option<string>,
                        generate: string -> Option<string>, parse: string -> Option<Json>,
                        token: string, saved: bool, durationMs: Option<nat>)
    returns (r: Result<Question, HttpError>)
    modifies store`repos, voice
    ensures store.repos == WithDirectory(old(store.repos), repositoryId)
    ensures r.Ok? && fresh(r.value)
    ensures r.value.id == id && r.value.repositoryId == repositoryId
    ensures r.value.question == questionText && r.value.context == context
    ensures var prompt := QuestionPrompt(store.host, store.repos, repositoryId, questionText, context);
            !(Spoken(generate, parse, prompt).Some? && Writes(Spoken(generate, parse, prompt).value, saved) && durationMs.Some?) ==>
              r.value.response.None?
    ensures var prompt := QuestionPrompt(store.host, store.repos, repositoryId, questionText, context);
            Spoken(generate, parse, prompt).Some? && Writes(Spoken(generate, parse, prompt).value, saved) && durationMs.Some? ==>
              r.value.response == Answered(generate, parse, prompt, token)
  {
    var _ := store.CreateRepositoryDirectory(repositoryId);
    var failure := RepositoryCheck(store.repos, repositoryId);
    if failure.Some? {
      assert false;
    }
    var question := new Question(id, repositoryId, questionText, context);
    ProcessQuestion(store, voice, question, generate, parse, token, saved, durationMs);
    r := Ok(question);
  }

  /** `get_question`: there is no storage, so every lookup is a 404. */
  function GetQuestion(id: string): (r: Result<Question, HttpError>)
    ensures r == Err(HttpError(404, Literal("Question not found")))
  {
    Err(HttpError(404, Literal("Question not found")))
  }

  /** `get_repository_questions`: always the empty list. */
  function GetRepositoryQuestions(repositoryId: string): (r: seq<Question>)
    ensures |r| == 0
  {
    []
  }
}
