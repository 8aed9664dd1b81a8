/** The control flow of `main`, `createChatSession` and `submitQuery`: the
    API-key check, the session step whose id gates the query step, and the
    dispatch on the response mode. Requests themselves are not modelled: each
    step is given the reply its request received. */
module Client {
  import opened Wrappers
  import opened Json
  import opened Stream
  import opened Sync

  const ApiKeyPlaceholder := "<your_api_key>"
  const SyncMode := "sync"
  const StreamMode := "stream"
  const SessionCreated := 201

  /** The context metadata `main` passes to the query step. */
  const DefaultContextMetadata := [ContextField("userId", "1"), ContextField("name", "John")]

  /** The outcome of one HTTP request: the client got no reply at all, or a
      status code and the body `ioutil.ReadAll` returned. */
  datatype HttpReply = TransportFailure | Reply(status: int, body: string)

  /** The query's reply as each mode reads it: sync mode reads the whole
      body, stream mode reads the lines the scanner yields and whether the
      scanner ended on a read error. */
  datatype QueryReply =
    | QueryTransportFailure
    | QueryReply(status: int, body: string, lines: seq<string>, readError: bool)

  /** The API key is unusable when it is empty or still the placeholder. */
  predicate ApiKeyMissing(apiKey: string) {
    apiKey == ApiKeyPlaceholder || apiKey == ""
  }

  /** `sessionResp.Data.ID` after decoding the body: the string `id` of the
      `data` object, or the empty zero value. */
  function DataId(document: Option<Object>): (id: string)
    ensures id != "" ==>
      && document.Some?
      && ObjectField(document.value, "data").Some?
      && StringField(ObjectField(document.value, "data").value, "id") == Some(id)
    ensures (&& document.Some?
             && ObjectField(document.value, "data").Some?
             && StringField(ObjectField(document.value, "data").value, "id").Some?) ==>
      id == StringField(ObjectField(document.value, "data").value, "id").value
  {
    match document
    case None => ""
    case Some(doc) =>
      match ObjectField(doc, "data")
      case None => ""
      case Some(data) => StringField(data, "id").GetOr("")
  }

  /** `createChatSession`: the decoded session id on HTTP 201, the empty
      string on any other status or when the request fails. */
  function SessionId(reply: HttpReply, parse: Parser): (id: string)
    ensures id != "" ==> reply.Reply? && reply.status == SessionCreated
    ensures reply.Reply? && reply.status == SessionCreated ==> id == DataId(parse(reply.body).document)
  {
    match reply
    case TransportFailure => ""
    // the decoder's error is discarded, as in the source
    case Reply(status, body) => if status == SessionCreated then DataId(parse(body).document) else ""
  }

  /** What `submitQuery` produces. */
  datatype QueryOutput =
    | RequestFailed
    | SyncOutput(sync: SyncReply)
    | StreamOutput(stream: Option<FinalResponse>)
    | NoOutput

  function SubmitQuery(mode: string, reply: QueryReply, parse: Parser,
                       contextMetadata: seq<ContextField>): (r: QueryOutput)
    ensures r.RequestFailed? <==> reply.QueryTransportFailure?
    ensures reply.QueryReply? ==> (r.NoOutput? <==> mode != SyncMode && mode != StreamMode)
    ensures r.SyncOutput? ==>
      && mode == SyncMode
      && r.sync == SyncResponse(reply.status, reply.body, parse, contextMetadata)
    ensures r.StreamOutput? ==>
      && mode == StreamMode
      && r.stream == StreamOutcome(reply.lines, reply.readError, parse, contextMetadata)
  {
    match reply
    case QueryTransportFailure => RequestFailed
    case QueryReply(status, body, lines, readError) =>
      if mode == SyncMode then SyncOutput(SyncResponse(status, body, parse, contextMetadata))
      else if mode == StreamMode then StreamOutput(StreamOutcome(lines, readError, parse, contextMetadata))
      else NoOutput
  }

  /** One run of the program. */
  datatype Run =
    | MissingApiKey                          // exit status 1 before any request
    | NoSession                              // the query step is skipped
    | Queried(sessionId: string, output: QueryOutput)

  function RunClient(apiKey: string, mode: string, sessionReply: HttpReply,
                     queryReply: QueryReply, parse: Parser): (r: Run)
    ensures r.MissingApiKey? <==> ApiKeyMissing(apiKey)
    ensures !ApiKeyMissing(apiKey) ==> (r.NoSession? <==> SessionId(sessionReply, parse) == "")
    ensures r.Queried? ==>
      && r.sessionId != ""
      && r.sessionId == SessionId(sessionReply, parse)
      && sessionReply.Reply? && sessionReply.status == SessionCreated
      && r.output == SubmitQuery(mode, queryReply, parse, DefaultContextMetadata)
  {
    if ApiKeyMissing(apiKey) then MissingApiKey
    else
      var sessionId := SessionId(sessionReply, parse);
      if sessionId != "" then Queried(sessionId, SubmitQuery(mode, queryReply, parse, DefaultContextMetadata))
      else NoSession
  }

  /** Stream mode never looks at the status code: an error status yields
      the same result as a success with the same lines. */
  lemma StreamIgnoresStatus(status1: int, status2: int, body1: string, body2: string,
                            lines: seq<string>, readError: bool, parse: Parser,
                            contextMetadata: seq<ContextField>)
    ensures SubmitQuery(StreamMode, QueryReply(status1, body1, lines, readError), parse, contextMetadata)
         == SubmitQuery(StreamMode, QueryReply(status2, body2, lines, readError), parse, contextMetadata)
  {
  }

  /** A 201 reply whose `data.id` is "S1" yields the session "S1", and the
      query step runs with it. */
  lemma SessionCreatedExample(parse: Parser, body: string, mode: string, queryReply: QueryReply)
    requires parse(body).document == Some(map["data" := Obj(map["id" := Str("S1")])])
    ensures SessionId(Reply(201, body), parse) == "S1"
    ensures RunClient("key", mode, Reply(201, body), queryReply, parse).Queried?
  {
  }

  /** The three decodes treat the decoder's error differently: a payload
      the decoder fills in and still reports an error for (a number out of
      range, say) is skipped by stream mode, yet printed by sync mode and read
      for an id by the session step. */
  lemma DecoderErrorDivergence(text: string, line: string, parse: Parser,
                               contextMetadata: seq<ContextField>)
    requires DataPrefix <= line && Payload(line) == text && text != DoneSentinel
    requires parse(text).failed && parse(text).document.Some?
    ensures Classify(line, parse) == Malformed
    ensures SyncResponse(200, text, parse, contextMetadata).document.Some?
    ensures SessionId(Reply(SessionCreated, text), parse) == DataId(parse(text).document)
  {
  }

  /** The response mode the program ships with: no mode at all. */
  const ShippedResponseMode := ""

  /** As shipped, the API key is the placeholder, so every run stops before
      any request; and the shipped empty mode would make the query step
      produce nothing even once a key is set. */
  lemma ShippedConfiguration(mode: string, sessionReply: HttpReply, queryReply: QueryReply,
                             parse: Parser, contextMetadata: seq<ContextField>)
    ensures RunClient(ApiKeyPlaceholder, mode, sessionReply, queryReply, parse) == MissingApiKey
    ensures queryReply.QueryReply? ==>
      SubmitQuery(ShippedResponseMode, queryReply, parse, contextMetadata) == NoOutput
  {
  }

  /** A 400 reply yields no session and the query step is skipped, whatever
      the body says. */
  lemma SessionRejectedExample(parse: Parser, body: string, mode: string, queryReply: QueryReply)
    ensures SessionId(Reply(400, body), parse) == ""
    ensures RunClient("key", mode, Reply(400, body), queryReply, parse) == NoSession
  {
  }
}
