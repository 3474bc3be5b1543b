/**
 * app/api/endpoints/phone_calls.py: planning a telephone call (whether a
 * knowledge base is created, the `task` text, the tools list), placing it
 * through the Bland service, the call-status lookup and the configuration
 * report.
 */
module PhoneCallsApi {
  import opened Wrappers
  import opened Strings
  import opened Json
  import opened Errors
  import opened BlandCallService

  /** The fields of the request body that the endpoint reads. */
  datatype PhoneCallRequest = PhoneCallRequest(
    phoneNumber: string,
    knowledgeBaseId: Option<string>,
    knowledgeBaseName: Option<string>,
    knowledgeBaseDescription: Option<string>,
    knowledgeBaseText: Option<string>,
    callInstructions: Option<string>,
    voiceId: Option<string>,
    backgroundTrack: Option<string>,
    firstSentence: Option<string>,
    waitForGreeting: Option<bool>,
    blockInterruptions: Option<bool>,
    language: Option<string>,
    record: Option<bool>)

  datatype PhoneCallResponse = PhoneCallResponse(callId: Json, status: Json, phoneNumber: string, knowledgeBaseId: Option<Json>)

  const KnowledgeBaseFieldsRequired :=
    "When providing knowledge_base_text, both knowledge_base_name and knowledge_base_description are required"
  const InstructionsRequired := "Either call_instructions or a knowledge base (existing or new) is required"
  const DefaultTask := "You are a senior developer helping explain code to the user."
  const PreviewHeading := "\n\nHere's a preview of the code to reference:\n\n"
  const PreviewLength: nat := 5000
  const KnowledgeBaseFailure := FailureOpening + FailureCause + FailureClosing
  const FailureOpening := "Failed to create knowledge base."
  const FailureCause := " This may be due to an invalid API key"
  const FailureClosing := " or API permission issues."

  /** The knowledge-base id the request names, as the value later placed in `tools`. */
  function RequestedKnowledgeBase(request: PhoneCallRequest): (r: Option<Json>)
    ensures OptionTruthy(r) <==> Truthy(request.knowledgeBaseId)
    ensures r.Some? <==> request.knowledgeBaseId.Some?
  {
    match request.knowledgeBaseId
    case None => None
    case Some(id) => Some(JStr(id))
  }

  /** A new knowledge base is wanted: no id given, but a text to build one from. */
  predicate WantsKnowledgeBase(request: PhoneCallRequest)
  {
    !Truthy(request.knowledgeBaseId) && Truthy(request.knowledgeBaseText)
  }

  /** The 400 raised before anything is sent: a text without a name or a description. */
  function Precheck(request: PhoneCallRequest): (r: Option<Failure>)
    ensures r.Some? <==> WantsKnowledgeBase(request) &&
                         (!Truthy(request.knowledgeBaseName) || !Truthy(request.knowledgeBaseDescription))
    ensures r.Some? ==> r.value == HttpFailure(400, KnowledgeBaseFieldsRequired)
  {
    if WantsKnowledgeBase(request) && (!Truthy(request.knowledgeBaseName) || !Truthy(request.knowledgeBaseDescription)) then
      Some(HttpFailure(400, KnowledgeBaseFieldsRequired))
    else None
  }

  /** The knowledge-base id after the creation step: the created id, or nothing
      when creation failed (the failure is swallowed), or the requested id when
      nothing had to be created. */
  function KnowledgeBaseAfter(request: PhoneCallRequest, created: Result<Json, Failure>): (r: Option<Json>)
    ensures !WantsKnowledgeBase(request) ==> r == RequestedKnowledgeBase(request)
    ensures WantsKnowledgeBase(request) ==> (r.Some? <==> created.Ok?)
    ensures WantsKnowledgeBase(request) && created.Ok? ==> r == Some(created.value)
  {
    if WantsKnowledgeBase(request) then
      match created
      case Ok(id) => Some(id)
      case Err(_) => None
    else RequestedKnowledgeBase(request)
  }

  /** The `task` sent with the call: the caller's instructions, extended with a
      preview of the text when a text was given but no usable knowledge base
      exists. */
  function PlannedTask(request: PhoneCallRequest, kb: Option<Json>): (r: Option<string>)
    ensures OptionTruthy(kb) || !Truthy(request.knowledgeBaseText) ==> r == request.callInstructions
    ensures !OptionTruthy(kb) && Truthy(request.knowledgeBaseText) ==>
              r == Some((if Truthy(request.callInstructions) then request.callInstructions.value else DefaultTask)
                        + PreviewHeading + Take(request.knowledgeBaseText.value, PreviewLength) + "\n\n...")
  {
    if !OptionTruthy(kb) && Truthy(request.knowledgeBaseText) then
      var base := if Truthy(request.callInstructions) then request.callInstructions.value else DefaultTask;
      Some(base + PreviewHeading + Take(request.knowledgeBaseText.value, PreviewLength) + "\n\n...")
    else request.callInstructions
  }

  /** `tools = [knowledge_base_id]` when the id is truthy, otherwise None. */
  function PlannedTools(kb: Option<Json>): (r: Option<seq<Json>>)
    ensures r.Some? <==> OptionTruthy(kb)
    ensures r.Some? ==> r.value == [kb.value]
  {
    if OptionTruthy(kb) then Some([kb.value]) else None
  }

  /** The fallback task always reaches the second 400 check non-empty and keeps
      at most 5000 characters of the text. */
  lemma FallbackTaskIsTruthy(request: PhoneCallRequest, kb: Option<Json>)
    requires !OptionTruthy(kb) && Truthy(request.knowledgeBaseText)
    ensures Truthy(PlannedTask(request, kb))
    ensures |PlannedTask(request, kb).value| <= |DefaultTask| + |request.callInstructions.GetOr("")|
                                               + |PreviewHeading| + PreviewLength + 5
  {
    var base := if Truthy(request.callInstructions) then request.callInstructions.value else DefaultTask;
    assert |base| <= |DefaultTask| + |request.callInstructions.GetOr("")|;
  }

  /** The second 400 is raised exactly when neither instructions nor a text nor
      a usable knowledge base is there. */
  lemma InstructionsCheck(request: PhoneCallRequest, kb: Option<Json>)
    ensures !Truthy(PlannedTask(request, kb)) && !OptionTruthy(kb) <==>
              !Truthy(request.callInstructions) && !Truthy(request.knowledgeBaseText) && !OptionTruthy(kb)
  {
    if !OptionTruthy(kb) && Truthy(request.knowledgeBaseText) {
      FallbackTaskIsTruthy(request, kb);
    }
  }

  /** The tools list carries the knowledge base exactly when the `task` carries no preview. */
  lemma ToolsOrPreview(request: PhoneCallRequest, kb: Option<Json>)
    requires Truthy(request.knowledgeBaseText)
    ensures PlannedTools(kb).Some? <==> PlannedTask(request, kb) == request.callInstructions || OptionTruthy(kb)
    ensures PlannedTools(kb).None? ==> PlannedTask(request, kb) != request.callInstructions
  {
    if !OptionTruthy(kb) {
      var base := if Truthy(request.callInstructions) then request.callInstructions.value else DefaultTask;
      var t := base + PreviewHeading + Take(request.knowledgeBaseText.value, PreviewLength) + "\n\n...";
      if Truthy(request.callInstructions) {
        assert |t| > |request.callInstructions.value|;
      } else {
        assert t != "";
      }
    }
  }

  /** The detail of the 500: `str(e)`, unless it mentions `vector_id`. */
  function ErrorDetail(detail: string): (r: string)
    ensures Contains(detail, "vector_id") ==> r == KnowledgeBaseFailure
    ensures !Contains(detail, "vector_id") ==> r == detail
  {
    if Contains(detail, "vector_id") then KnowledgeBaseFailure else detail
  }

  /** A text without an underscore cannot mention `vector_id`. */
  lemma NoUnderscoreNoVectorId(s: string)
    requires '_' !in s
    ensures !Contains(s, "vector_id")
  {
    if Contains(s, "vector_id") {
      var i :| 0 <= i <= |s| - 9 && OccursAt(s, "vector_id", i);
      UnderscoreInside(s, i);
      assert false;
    }
  }

  lemma UnderscoreInside(s: string, i: int)
    requires 0 <= i <= |s| - 9 && OccursAt(s, "vector_id", i)
    ensures s[i + 6] == '_'
  {
    assert s[i + 6] == s[i..i + 9][6];
  }

  /** Rewriting the detail twice changes nothing more than rewriting it once. */
  lemma ErrorDetailIdempotent(detail: string)
    ensures ErrorDetail(ErrorDetail(detail)) == ErrorDetail(detail)
  {
    assert '_' !in FailureOpening && '_' !in FailureCause && '_' !in FailureClosing;
    NoUnderscoreNoVectorId(KnowledgeBaseFailure);
  }

  /** Every exception of `make_phone_call`, the two 400s included, answers 500. */
  function CallFailure(f: Failure, strOf: Failure -> string): (r: HttpError)
    ensures r.status == 500 && r.detail == Literal(ErrorDetail(Str(f, strOf)))
  {
    HttpError(500, Literal(ErrorDetail(Str(f, strOf))))
  }

  /** The response built from the call data: `call_data["call_id"]` and
      `call_data["status"]`, the number as the caller wrote it, and the id. */
  function Reply(callData: Json, request: PhoneCallRequest, kb: Option<Json>): (r: Result<PhoneCallResponse, Failure>)
    ensures r.Ok? <==> callData.JObj? && "call_id" in callData.fields && "status" in callData.fields
    ensures r.Ok? ==> r.value == PhoneCallResponse(callData.fields["call_id"], callData.fields["status"],
                                                   request.phoneNumber, kb)
    ensures callData.JObj? && "call_id" !in callData.fields ==> r == Err(MissingKey("call_id"))
  {
    match callData
    case JObj(d) =>
      if "call_id" !in d then Err(MissingKey("call_id"))
      else if "status" !in d then Err(MissingKey("status"))
      else Ok(PhoneCallResponse(d["call_id"], d["status"], request.phoneNumber, kb))
    case _ => Err(Foreign("subscript"))
  }

  /** `make_phone_call`. `sent` lists the requests handed to the service's HTTP
      client, in order. */
  method MakePhoneCall(service: BlandService, request: PhoneCallRequest, send: Request -> HttpReply,
                       strOf: Failure -> string)
    returns (sent: seq<Request>, r: Result<PhoneCallResponse, HttpError>)
    ensures r.Err? ==> r.error.status == 500
    ensures Precheck(request).Some? ==> sent == [] && r == Err(CallFailure(Precheck(request).value, strOf))
    ensures Precheck(request).None? && WantsKnowledgeBase(request) ==>
              |sent| >= 1 && sent[0] == service.KnowledgeBaseRequest(request.knowledgeBaseName.value,
                request.knowledgeBaseDescription.value, request.knowledgeBaseText.value)
    ensures Precheck(request).None? && !WantsKnowledgeBase(request) ==> |sent| <= 1
    ensures Precheck(request).None? ==>
              var created := if WantsKnowledgeBase(request) then KnowledgeBaseOutcome(send(sent[0])) else Err(Foreign("none"));
              var kb := KnowledgeBaseAfter(request, created);
              var task := PlannedTask(request, kb);
              if !Truthy(task) && !OptionTruthy(kb) then
                r == Err(CallFailure(HttpFailure(400, InstructionsRequired), strOf))
                && |sent| == (if WantsKnowledgeBase(request) then 1 else 0)
              else
                && |sent| == (if WantsKnowledgeBase(request) then 2 else 1)
                && var call := sent[|sent| - 1];
                && call.url == service.apiUrl + "/calls" && call.body.Some? && call.body.value.JObj?
                && PayloadFor(call.body.value.fields, RemoveAll(request.phoneNumber, ' '), task, request.voiceId,
                              request.backgroundTrack, request.firstSentence, request.waitForGreeting,
                              request.blockInterruptions, request.language, request.record, PlannedTools(kb))
                && match CallOutcome(send(call))
                   case Err(f) => r == Err(CallFailure(f, strOf))
                   case Ok(data) => match Reply(data, request, kb)
                     case Err(f) => r == Err(CallFailure(f, strOf))
                     case Ok(response) => r == Ok(response)
  {
    sent := [];
    var failure := Precheck(request);
    if failure.Some? {
      return sent, Err(CallFailure(failure.value, strOf));
    }
    var kb := RequestedKnowledgeBase(request);
    ghost var created: Result<Json, Failure> := Err(Foreign("none"));
    if !OptionTruthy(kb) && Truthy(request.knowledgeBaseText) {
      var kbRequest, outcome := service.CreateKnowledgeBase(request.knowledgeBaseName.value,
        request.knowledgeBaseDescription.value, request.knowledgeBaseText.value, send);
      sent := sent + [kbRequest];
      created := outcome;
      kb := if outcome.Ok? then Some(outcome.value) else None;
    }
    assert kb == KnowledgeBaseAfter(request, created);
    var task := request.callInstructions;
    if !OptionTruthy(kb) && Truthy(request.knowledgeBaseText) {
      if !Truthy(task) {
        task := Some(DefaultTask);
      }
      var preview := Take(request.knowledgeBaseText.value, PreviewLength);
      task := Some(task.value + PreviewHeading + preview + "\n\n...");
    }
    assert task == PlannedTask(request, kb);
    var tools: Option<seq<Json>> := None;
    if OptionTruthy(kb) {
      tools := Some([kb.value]);
    }
    if !Truthy(task) && !OptionTruthy(kb) {
      return sent, Err(CallFailure(HttpFailure(400, InstructionsRequired), strOf));
    }
    var callRequest, callData := service.MakePhoneCall(request.phoneNumber, task, request.voiceId,
      request.backgroundTrack, request.firstSentence, request.waitForGreeting, request.blockInterruptions,
      request.language, request.record, tools, send);
    sent := sent + [callRequest];
    if callData.Err? {
      return sent, Err(CallFailure(callData.error, strOf));
    }
    var reply := Reply(callData.value, request, kb);
    if reply.Err? {
      return sent, Err(CallFailure(reply.error, strOf));
    }
    r := Ok(reply.value);
  }

  /** A failed knowledge-base creation never fails the call: the text goes into
      the `task` instead and no tools are sent. */
  lemma CreationFailureFallsBack(request: PhoneCallRequest, f: Failure)
    requires WantsKnowledgeBase(request)
    ensures PlannedTools(KnowledgeBaseAfter(request, Err(f))).None?
    ensures Truthy(PlannedTask(request, KnowledgeBaseAfter(request, Err(f))))
  {
    FallbackTaskIsTruthy(request, None);
  }

  /** The configuration report of `check_bland_config`. */
  datatype ConfigReport =
    | ConfigError(message: string)
    | ConfigOk(apiUrl: string, apiKeySet: bool, apiKeyPreview: Option<string>)

  /** `check_bland_config` over the two settings; a setting the settings class
      does not declare is None, and reading it raises. */
  function CheckBlandConfig(apiKey: Option<string>, apiUrl: Option<string>, strOf: Failure -> string): (r: ConfigReport)
    ensures apiKey == Some("") ==> r == ConfigError("BLAND_API_KEY not set in environment variables")
    ensures Truthy(apiKey) && apiUrl == Some("") ==> r == ConfigError("BLAND_API_URL not set in environment variables")
    ensures r.ConfigOk? <==> Truthy(apiKey) && Truthy(apiUrl)
    ensures r.ConfigOk? ==> r.apiUrl == apiUrl.value && r.apiKeySet
    ensures r.ConfigOk? ==> (r.apiKeyPreview.Some? <==> |apiKey.value| > 5)
    ensures r.ConfigOk? && r.apiKeyPreview.Some? ==> r.apiKeyPreview.value == apiKey.value[..5] + "..."
  {
    match apiKey
    case None => ConfigError(strOf(Foreign("settings.BLAND_API_KEY")))
    case Some(key) =>
      if key == "" then ConfigError("BLAND_API_KEY not set in environment variables")
      else match apiUrl
        case None => ConfigError(strOf(Foreign("settings.BLAND_API_URL")))
        case Some(url) =>
          if url == "" then ConfigError("BLAND_API_URL not set in environment variables")
          else ConfigOk(url, key != "", if |key| > 5 then Some(key[..5] + "...") else None)
  }

  /** The preview never reveals more than five characters of the key. */
  lemma PreviewMasksKey(apiKey: Option<string>, apiUrl: Option<string>, strOf: Failure -> string)
    requires CheckBlandConfig(apiKey, apiUrl, strOf).ConfigOk?
    requires CheckBlandConfig(apiKey, apiUrl, strOf).apiKeyPreview.Some?
    ensures var p := CheckBlandConfig(apiKey, apiUrl, strOf).apiKeyPreview.value;
            |p| == 8 && p[..5] <= apiKey.value && p[5..] == "..."
  {
  }

  const ConfigStatusId := "config-status"

  /** What `get_call_status` answers. */
  datatype StatusAnswer = ConfigAnswer(report: ConfigReport) | CallData(data: Json)

  /** `get_call_status`: the sentinel id answers with the configuration report
      and sends nothing; any other id is looked up remotely. */
  method GetCallStatus(service: BlandService, callId: string, apiKey: Option<string>, apiUrl: Option<string>,
                       send: Request -> HttpReply, strOf: Failure -> string)
    returns (sent: seq<Request>, r: Result<StatusAnswer, HttpError>)
    ensures callId == ConfigStatusId ==> sent == [] && r == Ok(ConfigAnswer(CheckBlandConfig(apiKey, apiUrl, strOf)))
    ensures callId != ConfigStatusId ==> sent == [service.StatusRequest(callId)]
    ensures callId != ConfigStatusId ==>
              match StatusOutcome(send(sent[0]))
              case Ok(data) => r == Ok(CallData(data))
              case Err(f) => r == Err(Internal(f))
  {
    if callId == ConfigStatusId {
      return [], Ok(ConfigAnswer(CheckBlandConfig(apiKey, apiUrl, strOf)));
    }
    var statusRequest, outcome := service.GetCallStatus(callId, send);
    sent := [statusRequest];
    match outcome {
      case Ok(data) => r := Ok(CallData(data));
      case Err(f) => r := Err(Internal(f));
    }
  }
}
