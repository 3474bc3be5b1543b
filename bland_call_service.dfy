/**
 * app/services/bland_call_service.py: the requests sent to the Bland AI
 * telephony API and how their replies become results or errors. The HTTP
 * exchange is an outside call: `send` gives the reply to each request.
 */
module BlandCallService {
  import opened Wrappers
  import opened Strings
  import opened Json
  import opened Errors

  /** A request as handed to httpx. */
  datatype Request = Request(verb: string, url: string, headers: map<string, string>, body: Option<Json>)

  /** What httpx hands back: a response, or a transport failure (`httpx.RequestError`). */
  datatype HttpReply =
    | Response(status: nat, text: string, json: Option<Json>)   // json: None when the body is not JSON
    | RequestFailed(reason: string)

  /** `raise_for_status` raises for every status outside 2xx. */
  predicate Success(status: nat)
  {
    200 <= status < 300
  }

  /** The headers of every request: the raw key, with no scheme prefix. */
  function Headers(apiKey: string): (r: map<string, string>)
    ensures r.Keys == {"authorization", "Content-Type"}
    ensures r["authorization"] == apiKey && r["Content-Type"] == "application/json"
  {
    map["authorization" := apiKey, "Content-Type" := "application/json"]
  }

  /** The knowledge-base id in a decoded reply: `vector_id`, else `id`, else a ValueError. */
  function ExtractKnowledgeBaseId(d: map<string, Json>): (r: Result<Json, Failure>)
    ensures "vector_id" in d ==> r == Ok(d["vector_id"])
    ensures "vector_id" !in d && "id" in d ==> r == Ok(d["id"])
    ensures r.Err? <==> "vector_id" !in d && "id" !in d
    ensures r.Err? ==> r.error == MissingVectorId(JObj(d))
  {
    if "vector_id" !in d then
      if "id" in d then Ok(d["id"]) else Err(MissingVectorId(JObj(d)))
    else Ok(d["vector_id"])
  }

  /** How `create_knowledge_base` turns the reply into an id or an error. */
  function KnowledgeBaseOutcome(reply: HttpReply): (r: Result<Json, Failure>)
    ensures reply.RequestFailed? ==> r == Err(Transport(reply.reason))
    ensures reply.Response? && !Success(reply.status) ==> r == Err(BlandApiError(reply.status, reply.text, true))
    ensures reply.Response? && Success(reply.status) && reply.json.Some? && reply.json.value.JObj? ==>
              r == ExtractKnowledgeBaseId(reply.json.value.fields)
  {
    match reply
    case RequestFailed(reason) => Err(Transport(reason))
    case Response(status, text, json) =>
      if !Success(status) then Err(BlandApiError(status, text, true))
      else match json
        case Some(JObj(d)) => ExtractKnowledgeBaseId(d)
        case _ => Err(Foreign("json"))
  }

  /** How `make_phone_call` turns the reply into the call data or an error. */
  function CallOutcome(reply: HttpReply): (r: Result<Json, Failure>)
    ensures reply.RequestFailed? ==> r == Err(ConnectionError(reply.reason))
    ensures reply.Response? && !Success(reply.status) ==> r == Err(BlandApiError(reply.status, reply.text, false))
    ensures r.Ok? <==> reply.Response? && Success(reply.status) && reply.json.Some?
    ensures r.Ok? ==> r.value == reply.json.value
  {
    match reply
    case RequestFailed(reason) => Err(ConnectionError(reason))
    case Response(status, text, json) =>
      if !Success(status) then Err(BlandApiError(status, text, false))
      else match json
        case Some(j) => Ok(j)
        case None => Err(Foreign("json"))
  }

  /** How `get_call_status` turns the reply into the call data; every error is re-raised as it is. */
  function StatusOutcome(reply: HttpReply): (r: Result<Json, Failure>)
    ensures reply.RequestFailed? ==> r == Err(Transport(reply.reason))
    ensures r.Ok? <==> reply.Response? && Success(reply.status) && reply.json.Some?
    ensures r.Ok? ==> r.value == reply.json.value
  {
    match reply
    case RequestFailed(reason) => Err(Transport(reason))
    case Response(status, _, json) =>
      if !Success(status) then Err(Foreign("raise_for_status"))
      else match json
        case Some(j) => Ok(j)
        case None => Err(Foreign("json"))
  }

  /** An optional string field: present exactly when the value is truthy. */
  predicate TextField(payload: map<string, Json>, key: string, value: Option<string>)
  {
    (key in payload <==> Truthy(value)) && (key in payload ==> payload[key] == JStr(value.value))
  }

  /** An optional boolean field: present exactly when the value is true, so false is omitted. */
  predicate FlagField(payload: map<string, Json>, key: string, value: Option<bool>)
  {
    (key in payload <==> value == Some(true)) && (key in payload ==> payload[key] == JBool(true))
  }

  /** The keys of the string fields, which come first, and of the call settings. */
  const TextKeys: set<string> := {"phone_number", "task", "voice", "background_track", "first_sentence"}
  const SettingKeys: set<string> := {"wait_for_greeting", "block_interruptions", "language", "record", "tools"}
  const PayloadKeys: set<string> := TextKeys + SettingKeys

  lemma KeysDisjoint()
    ensures TextKeys !! SettingKeys
  {
  }

  /** The number and the four string fields of a payload. */
  predicate TextPart(payload: map<string, Json>, phoneNumber: string, task: Option<string>, voice: Option<string>,
                     backgroundTrack: Option<string>, firstSentence: Option<string>)
  {
    && "phone_number" in payload && payload["phone_number"] == JStr(phoneNumber)
    && TextField(payload, "task", task)
    && TextField(payload, "voice", voice)
    && TextField(payload, "background_track", backgroundTrack)
    && TextField(payload, "first_sentence", firstSentence)
  }

  /** The call settings and tools of a payload, each present exactly when truthy. */
  predicate Settings(payload: map<string, Json>, waitForGreeting: Option<bool>, blockInterruptions: Option<bool>,
                     language: Option<string>, record: Option<bool>, tools: Option<seq<Json>>)
  {
    && FlagField(payload, "wait_for_greeting", waitForGreeting)
    && FlagField(payload, "block_interruptions", blockInterruptions)
    && TextField(payload, "language", language)
    && FlagField(payload, "record", record)
    && ("tools" in payload <==> tools.Some? && |tools.value| > 0)
    && ("tools" in payload ==> payload["tools"] == JArr(tools.value))
  }

  /** The call payload for the given arguments: the phone number always, each
      optional field exactly when its value is truthy, and nothing else. */
  predicate PayloadFor(payload: map<string, Json>, phoneNumber: string, task: Option<string>, voice: Option<string>,
                       backgroundTrack: Option<string>, firstSentence: Option<string>, waitForGreeting: Option<bool>,
                       blockInterruptions: Option<bool>, language: Option<string>, record: Option<bool>,
                       tools: Option<seq<Json>>)
  {
    && payload.Keys <= PayloadKeys
    && TextPart(payload, phoneNumber, task, voice, backgroundTrack, firstSentence)
    && Settings(payload, waitForGreeting, blockInterruptions, language, record, tools)
  }

  /** The arguments determine the payload: two payloads built from the same
      arguments are the same map. */
  lemma PayloadUnique(p: map<string, Json>, q: map<string, Json>, phoneNumber: string, task: Option<string>,
                      voice: Option<string>, backgroundTrack: Option<string>, firstSentence: Option<string>,
                      waitForGreeting: Option<bool>, blockInterruptions: Option<bool>, language: Option<string>,
                      record: Option<bool>, tools: Option<seq<Json>>)
    requires PayloadFor(p, phoneNumber, task, voice, backgroundTrack, firstSentence, waitForGreeting,
                        blockInterruptions, language, record, tools)
    requires PayloadFor(q, phoneNumber, task, voice, backgroundTrack, firstSentence, waitForGreeting,
                        blockInterruptions, language, record, tools)
    ensures p == q
  {
    assert p.Keys == q.Keys by {
      forall k | k in p ensures k in q { assert k in PayloadKeys; }
      forall k | k in q ensures k in p { assert k in PayloadKeys; }
    }
    forall k | k in p ensures p[k] == q[k] { assert k in PayloadKeys; }
  }

  /** With the keyword defaults of `make_phone_call` (flags false, language
      "en-US", everything else None) the payload holds the number and the
      language only. */
  lemma DefaultPayload(payload: map<string, Json>, phoneNumber: string)
    requires PayloadFor(payload, phoneNumber, None, None, None, None, Some(false), Some(false), Some("en-US"),
                        Some(false), None)
    ensures payload == map["phone_number" := JStr(phoneNumber), "language" := JStr("en-US")]
  {
    var expected := map["phone_number" := JStr(phoneNumber), "language" := JStr("en-US")];
    forall k | k in payload ensures k in expected {
      assert k in PayloadKeys;
    }
    assert payload.Keys == expected.Keys;
  }

  /** The successive conditional insertions of `make_phone_call`. */
  method BuildPayload(phoneNumber: string, task: Option<string>, voice: Option<string>,
                      backgroundTrack: Option<string>, firstSentence: Option<string>, waitForGreeting: Option<bool>,
                      blockInterruptions: Option<bool>, language: Option<string>, record: Option<bool>,
                      tools: Option<seq<Json>>)
    returns (payload: map<string, Json>)
    ensures PayloadFor(payload, phoneNumber, task, voice, backgroundTrack, firstSentence, waitForGreeting,
                       blockInterruptions, language, record, tools)
  {
    var texts := AddTexts(phoneNumber, task, voice, backgroundTrack, firstSentence);
    KeysDisjoint();
    payload := AddSettings(texts, waitForGreeting, blockInterruptions, language, record, tools);
    TextPartKept(texts, payload, phoneNumber, task, voice, backgroundTrack, firstSentence);
  }

  /** The first half of the insertions: the number and the string fields. */
  method AddTexts(phoneNumber: string, task: Option<string>, voice: Option<string>,
                  backgroundTrack: Option<string>, firstSentence: Option<string>)
    returns (payload: map<string, Json>)
    ensures payload.Keys <= TextKeys
    ensures TextPart(payload, phoneNumber, task, voice, backgroundTrack, firstSentence)
  {
    payload := map["phone_number" := JStr(phoneNumber)];
    if Truthy(task) {
      payload := payload["task" := JStr(task.value)];
    }
    if Truthy(voice) {
      payload := payload["voice" := JStr(voice.value)];
    }
    if Truthy(backgroundTrack) {
      payload := payload["background_track" := JStr(backgroundTrack.value)];
    }
    if Truthy(firstSentence) {
      payload := payload["first_sentence" := JStr(firstSentence.value)];
    }
  }

  /** Adding only setting keys keeps the string fields as they were. */
  lemma TextPartKept(texts: map<string, Json>, payload: map<string, Json>, phoneNumber: string, task: Option<string>,
                     voice: Option<string>, backgroundTrack: Option<string>, firstSentence: Option<string>)
    requires texts.Keys <= TextKeys && TextKeys !! SettingKeys
    requires TextPart(texts, phoneNumber, task, voice, backgroundTrack, firstSentence)
    requires payload.Keys <= texts.Keys + SettingKeys
    requires forall k :: k in texts ==> k in payload && payload[k] == texts[k]
    ensures TextPart(payload, phoneNumber, task, voice, backgroundTrack, firstSentence)
  {
    assert "task" in TextKeys && "voice" in TextKeys;
    assert "background_track" in TextKeys && "first_sentence" in TextKeys;
  }

  /** The second half of the insertions: the call settings and the tools. */
  method AddSettings(texts: map<string, Json>, waitForGreeting: Option<bool>, blockInterruptions: Option<bool>,
                     language: Option<string>, record: Option<bool>, tools: Option<seq<Json>>)
    returns (payload: map<string, Json>)
    requires texts.Keys !! SettingKeys
    ensures payload.Keys <= texts.Keys + SettingKeys
    ensures forall k :: k in texts ==> k in payload && payload[k] == texts[k]
    ensures Settings(payload, waitForGreeting, blockInterruptions, language, record, tools)
  {
    payload := texts;
    if waitForGreeting == Some(true) {
      payload := payload["wait_for_greeting" := JBool(true)];
    }
    if blockInterruptions == Some(true) {
      payload := payload["block_interruptions" := JBool(true)];
    }
    if Truthy(language) {
      payload := payload["language" := JStr(language.value)];
    }
    if record == Some(true) {
      payload := payload["record" := JBool(true)];
    }
    if tools.Some? && |tools.value| > 0 {
      payload := payload["tools" := JArr(tools.value)];
    }
  }

  /** The service object; its key and URL are fixed when it is made. */
  class BlandService {
    const apiKey: string
    const apiUrl: string

    constructor (apiKey: string, apiUrl: string)
      ensures this.apiKey == apiKey && this.apiUrl == apiUrl
    {
      this.apiKey := apiKey;
      this.apiUrl := apiUrl;
    }

    /** The POST that creates a knowledge base. */
    function KnowledgeBaseRequest(name: string, description: string, text: string): (r: Request)
      ensures r.verb == "POST" && r.url == apiUrl + "/knowledgebases" && r.headers == Headers(apiKey)
      ensures r.body == Some(JObj(map["name" := JStr(name), "description" := JStr(description), "text" := JStr(text)]))
    {
      Request("POST", apiUrl + "/knowledgebases", Headers(apiKey),
              Some(JObj(map["name" := JStr(name), "description" := JStr(description), "text" := JStr(text)])))
    }

    /** The GET that reads a call's status. */
    function StatusRequest(callId: string): (r: Request)
      ensures r.verb == "GET" && r.url == apiUrl + "/calls/" + callId && r.headers == Headers(apiKey) && r.body.None?
    {
      Request("GET", apiUrl + "/calls/" + callId, Headers(apiKey), None)
    }

    /** `create_knowledge_base`: sends the request and returns the id read off the reply. */
    method CreateKnowledgeBase(name: string, description: string, text: string, send: Request -> HttpReply)
      returns (sent: Request, r: Result<Json, Failure>)
      ensures sent == KnowledgeBaseRequest(name, description, text)
      ensures r == KnowledgeBaseOutcome(send(sent))
    {
      var headers := Headers(apiKey);
      var payload := map["name" := JStr(name), "description" := JStr(description), "text" := JStr(text)];
      sent := Request("POST", apiUrl + "/knowledgebases", headers, Some(JObj(payload)));
      var response := send(sent);
      match response {
        case RequestFailed(reason) =>
          r := Err(Transport(reason));
        case Response(status, body, json) =>
          if !Success(status) {
            r := Err(BlandApiError(status, body, true));
          } else if json.Some? && json.value.JObj? {
            r := ExtractKnowledgeBaseId(json.value.fields);
          } else {
            r := Err(Foreign("json"));
          }
      }
    }

    /** `make_phone_call`: strips the spaces from the number, builds the
        payload, posts it to "/calls" and returns the decoded reply. */
    method MakePhoneCall(phoneNumber: string, task: Option<string>, voice: Option<string>,
                         backgroundTrack: Option<string>, firstSentence: Option<string>,
                         waitForGreeting: Option<bool>, blockInterruptions: Option<bool>,
                         language: Option<string>, record: Option<bool>, tools: Option<seq<Json>>,
                         send: Request -> HttpReply)
      returns (sent: Request, r: Result<Json, Failure>)
      ensures sent.verb == "POST" && sent.url == apiUrl + "/calls" && sent.headers == Headers(apiKey)
      ensures sent.body.Some? && sent.body.value.JObj?
      ensures PayloadFor(sent.body.value.fields, RemoveAll(phoneNumber, ' '), task, voice, backgroundTrack,
                         firstSentence, waitForGreeting, blockInterruptions, language, record, tools)
      ensures r == CallOutcome(send(sent))
    {
      var cleaned := RemoveAll(phoneNumber, ' ');
      var headers := Headers(apiKey);
      var payload := BuildPayload(cleaned, task, voice, backgroundTrack, firstSentence, waitForGreeting,
                                  blockInterruptions, language, record, tools);
      sent := Request("POST", apiUrl + "/calls", headers, Some(JObj(payload)));
      var response := send(sent);
      match response {
        case RequestFailed(reason) =>
          r := Err(ConnectionError(reason));
        case Response(status, body, json) =>
          if !Success(status) {
            r := Err(BlandApiError(status, body, false));
          } else if json.Some? {
            r := Ok(json.value);
          } else {
            r := Err(Foreign("json"));
          }
      }
    }

    /** `get_call_status`. */
    method GetCallStatus(callId: string, send: Request -> HttpReply) returns (sent: Request, r: Result<Json, Failure>)
      ensures sent == StatusRequest(callId)
      ensures r == StatusOutcome(send(sent))
    {
      sent := Request("GET", apiUrl + "/calls/" + callId, Headers(apiKey), None);
      var response := send(sent);
      match response {
        case RequestFailed(reason) => r := Err(Transport(reason));
        case Response(status, _, json) =>
          if !Success(status) {
            r := Err(Foreign("raise_for_status"));
          } else if json.Some? {
            r := Ok(json.value);
          } else {
            r := Err(Foreign("json"));
          }
      }
    }
  }

  /** The error texts of a failed call and of a failed connection never coincide. */
  lemma CallErrorsDistinct(reply1: HttpReply, reply2: HttpReply)
    requires reply1.Response? && !Success(reply1.status) && reply2.RequestFailed?
    ensures Message(CallOutcome(reply1).error) != Message(CallOutcome(reply2).error)
  {
    BlandMessagesDistinct(reply1.status, reply1.text, false, reply2.reason);
  }
}
