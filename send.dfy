/**
  The values that pass through one send: the HTTP request handed to the
  transport, the transport's reply, the response record returned to the
  caller, and the rules that turn a reply into that record and an error.

  HTTP and JSON are collaborators outside this model: the encoder and the
  decoder appear only as the outcomes they produce, and the transport as a
  `Gateway` that logs what is posted to it and answers each post.
*/
module FcmSend {
  import opened Wrappers

  /** The endpoint of the legacy FCM HTTP send API. */
  const FcmServiceUrl: string := "https://fcm.googleapis.com/fcm/send"

  /** HTTP 200 OK. */
  const StatusOK: int := 200

  type Bytes = seq<bv8>

  /** A Go error value; only its description is kept. */
  datatype Error = Error(description: string)

  /** The POST request built for the gateway. */
  datatype Request = Request(
    httpMethod: string,
    url: string,
    authorization: string,
    contentType: string,
    body: Bytes)

  /** The prefix of the Authorization header that precedes the server key. */
  const KeyPrefix: string := "key="

  /**
    The request for an encoded body: a JSON POST to the service URL whose
    Authorization header is "key=" followed by the notifier's API key.
  */
  function NewRequest(apiKey: string, body: Bytes): (r: Request)
    ensures r.httpMethod == "POST" && r.url == FcmServiceUrl
    ensures r.contentType == "application/json" && r.body == body
    ensures |r.authorization| == |KeyPrefix| + |apiKey|
    ensures r.authorization[..|KeyPrefix|] == KeyPrefix
    ensures r.authorization[|KeyPrefix|..] == apiKey
  {
    Request("POST", FcmServiceUrl, KeyPrefix + apiKey, "application/json", body)
  }

  /** The server key a gateway reads back from an Authorization header, if it has the "key=" form. */
  function KeyOf(authorization: string): Option<string> {
    if |authorization| >= |KeyPrefix| && authorization[..|KeyPrefix|] == KeyPrefix
    then Some(authorization[|KeyPrefix|..])
    else None
  }

  /** The gateway reads back exactly the key the request was built with. */
  lemma AuthorizationRoundTrip(apiKey: string, body: Bytes)
    ensures KeyOf(NewRequest(apiKey, body).authorization) == Some(apiKey)
  {
  }

  /** What the transport makes of one request: a failed round trip, a body that could not be read, or a status and a body. */
  datatype Reply =
    | TransportFailed(error: Error)
    | ReadFailed(error: Error)
    | Received(status: int, body: Bytes)

  /**
    The HTTP client and the gateway behind it, seen from the notifier: every
    request posted is logged in `posted`, and the reply to a post depends on
    the request and on how many posts came before it, so the same request
    posted twice may be answered differently.
  */
  class Gateway {
    const replies: (nat, Request) -> Reply
    var posted: seq<Request>

    constructor (replies: (nat, Request) -> Reply)
      ensures this.replies == replies && posted == []
    {
      this.replies := replies;
      posted := [];
    }

    /** One round trip: the request is posted and its reply returned. */
    method Post(request: Request) returns (reply: Reply)
      modifies this
      ensures posted == old(posted) + [request]
      ensures reply == replies(|old(posted)|, request)
    {
      reply := replies(|posted|, request);
      posted := posted + [request];
    }
  }

  /** The fields the gateway's JSON reply carries (multicast_id, success, failure, canonical_ids, results, message_id, error). */
  datatype ResponseFields = ResponseFields(
    multicastId: int,
    success: int,
    fail: int,
    canonicalIds: int,
    results: seq<map<string, string>>,
    msgId: int,
    err: string)

  /** The record returned by a send. */
  datatype SendResponse = SendResponse(
    ok: bool,
    statusCode: int,
    multicastId: int,
    success: int,
    fail: int,
    canonicalIds: int,
    results: seq<map<string, string>>,
    msgId: int,
    err: string)

  /** A freshly allocated response: every field zero. */
  function ZeroResponse(): SendResponse {
    SendResponse(false, 0, 0, 0, 0, 0, [], 0, "")
  }

  /** The gateway fields of a response. */
  function FieldsOf(r: SendResponse): ResponseFields {
    ResponseFields(r.multicastId, r.success, r.fail, r.canonicalIds, r.results, r.msgId, r.err)
  }

  /** `r` with its gateway fields overwritten by decoded ones; `ok` and `statusCode` are kept. */
  function Populate(r: SendResponse, f: ResponseFields): (p: SendResponse)
    ensures FieldsOf(p) == f
    ensures p.ok == r.ok && p.statusCode == r.statusCode
  {
    r.(multicastId := f.multicastId, success := f.success, fail := f.fail,
       canonicalIds := f.canonicalIds, results := f.results, msgId := f.msgId, err := f.err)
  }

  /** A response together with the error returned beside it (None is Go's nil). */
  datatype SendResult = SendResult(response: SendResponse, error: Option<Error>)

  /**
    The outcome of a send whose body was encoded, given the transport's reply
    and the decoder. A transport or read failure gives the zero response and
    that error. A received reply records its status; only a 200 is decoded,
    and only a successful decode sets ok. A status other than 200 is no error.
  */
  function Interpret(reply: Reply, unmarshal: Bytes -> Result<ResponseFields, Error>): (out: SendResult)
    ensures out.response.ok <==> reply.Received? && reply.status == StatusOK && unmarshal(reply.body).Success?
    ensures out.response.ok ==> out.error == None && FieldsOf(out.response) == unmarshal(reply.body).value
    ensures !out.response.ok ==> out.response == ZeroResponse().(statusCode := out.response.statusCode)
    ensures out.response.statusCode == if reply.Received? then reply.status else 0
    ensures !reply.Received? ==> out.error == Some(reply.error)
    ensures reply.Received? && reply.status == StatusOK && unmarshal(reply.body).Failure? ==>
              out.error == Some(unmarshal(reply.body).error)
    ensures out.error == None <==> reply.Received? && (reply.status != StatusOK || unmarshal(reply.body).Success?)
  {
    match reply
    case TransportFailed(e) => SendResult(ZeroResponse(), Some(e))
    case ReadFailed(e) => SendResult(ZeroResponse(), Some(e))
    case Received(status, body) =>
      var recorded := ZeroResponse().(statusCode := status);
      if status != StatusOK then SendResult(recorded, None)
      else match unmarshal(body)
        case Failure(e) => SendResult(recorded, Some(e))
        case Success(f) => SendResult(Populate(recorded, f).(ok := true), None)
  }
}
