/**
 * Exceptions raised inside the core and the HTTP errors the endpoints turn
 * them into. The text of an exception is known where the code writes it; the
 * text of `str(e)` for an `HTTPException` or for an exception of an outside
 * library is not, and stays abstract.
 */
module Errors {
  import opened Wrappers
  import opened Strings
  import opened Json

  datatype Failure =
    | HttpFailure(status: int, detail: string)   // HTTPException raised by the code itself
    | FileMissing(message: string)               // FileNotFoundError
    | IsADirectory                               // open() of a directory
    | BlandApiError(code: nat, body: string, creatingKnowledgeBase: bool)
    | Transport(reason: string)                  // an httpx.RequestError, re-raised as it is
    | ConnectionError(reason: string)            // wraps str() of an httpx.RequestError
    | MissingVectorId(response: Json)            // ValueError from create_knowledge_base
    | MissingKey(key: string)                    // KeyError on a reply dictionary
    | Foreign(origin: string)                    // raised by git, zipfile, gTTS, httpx, the LLM SDK

  /** The `detail` of an HTTP error: a literal the code writes, or `str(e)`. */
  datatype Detail = Literal(text: string) | StrOf(cause: Failure)

  datatype HttpError = HttpError(status: int, detail: Detail)

  /** The text of the exceptions whose message the code writes out. */
  function Message(f: Failure): (r: Option<string>)
    ensures f.BlandApiError? || f.ConnectionError? || f.Transport? || f.FileMissing? <==> r.Some?
    ensures f.BlandApiError? ==>
              r == Some((if f.creatingKnowledgeBase then "Bland API error creating knowledge base: " else "Bland API error: ")
                        + Decimal(f.code) + " - " + f.body)
    ensures f.ConnectionError? ==> r == Some("Connection error: " + f.reason)
    ensures f.Transport? ==> r == Some(f.reason)
    ensures f.FileMissing? ==> r == Some(f.message)
  {
    match f
    case FileMissing(m) => Some(m)
    case BlandApiError(code, body, kb) =>
      Some((if kb then "Bland API error creating knowledge base: " else "Bland API error: ")
           + Decimal(code) + " - " + body)
    case Transport(reason) => Some(reason)
    case ConnectionError(reason) => Some("Connection error: " + reason)
    case _ => None
  }

  /** `str(e)`: the written message when there is one, otherwise whatever the
      outside rendering `strOf` gives. */
  function Str(f: Failure, strOf: Failure -> string): (r: string)
    ensures Message(f).Some? ==> r == Message(f).value
    ensures Message(f).None? ==> r == strOf(f)
  {
    match Message(f)
    case Some(m) => m
    case None => strOf(f)
  }

  /** `raise HTTPException(status_code=500, detail=str(e))`. */
  function Internal(f: Failure): (r: HttpError)
    ensures r.status == 500 && r.detail == StrOf(f)
  {
    HttpError(500, StrOf(f))
  }

  /** The two wrapped telephony errors can never be mistaken for each other. */
  lemma BlandMessagesDistinct(code: nat, body: string, kb: bool, reason: string)
    ensures Message(BlandApiError(code, body, kb)) != Message(ConnectionError(reason))
  {
    var prefix := if kb then "Bland API error creating knowledge base: " else "Bland API error: ";
    var m := prefix + Decimal(code) + " - " + body;
    assert Message(BlandApiError(code, body, kb)).value == m;
    assert m[0] == prefix[0] == 'B';
    assert Message(ConnectionError(reason)).value[0] == 'C';
  }
}
