/** Stream mode of `submitQuery`: the response body is read line by line,
    `data:` lines carry JSON events, `[DONE]` ends the stream, and the
    `fulfillment` and `metricsLog` events are folded into one final result.
    The line splitting of the scanner is not modelled: the input is the
    sequence of lines it yields and whether it stopped on a read error. */
module Stream {
  import opened Wrappers
  import opened Json
  import opened Text

  const DataPrefix := "data:"
  const DoneSentinel := "[DONE]"
  const SuccessMessage := "Chat query submitted successfully"
  const CompletedStatus := "completed"

  /** What one line means to the loop. */
  datatype LineKind =
    | NotData                // no `data:` at column 0
    | Done                   // `data:` followed by `[DONE]` once trimmed
    | Malformed              // `data:` payload the decoder reports an error for
    | Parsed(event: Object)  // `data:` payload decoded without error

  /** The text after `data:` with the surrounding spaces removed. */
  function Payload(line: string): (p: string)
    requires DataPrefix <= line
    ensures p != [] ==> !IsSpace(p[0]) && !IsSpace(p[|p| - 1])
  {
    TrimSpace(line[|DataPrefix|..])
  }

  function Classify(line: string, parse: Parser): (k: LineKind)
    ensures k.NotData? <==> !(DataPrefix <= line)
    ensures k.Done? <==> DataPrefix <= line && Payload(line) == DoneSentinel
    ensures k.Malformed? <==>
      DataPrefix <= line && Payload(line) != DoneSentinel && parse(Payload(line)).failed
    ensures k.Parsed? ==>
      && DataPrefix <= line
      && !parse(Payload(line)).failed
      && k.event == parse(Payload(line)).document.GetOr(map[])
  {
    if !(DataPrefix <= line) then NotData
    else
      var payload := Payload(line);
      if payload == DoneSentinel then Done
      else
        var decoded := parse(payload);
        // a nil map answers every lookup as an empty one does
        if decoded.failed then Malformed else Parsed(decoded.document.GetOr(map[]))
  }

  /** `event["eventType"] == "fulfillment"`: true only for that exact string. */
  predicate IsFulfillment(event: Object) {
    "eventType" in event && event["eventType"] == Str("fulfillment")
  }

  predicate IsMetricsLog(event: Object) {
    "eventType" in event && event["eventType"] == Str("metricsLog")
  }

  /** The loop's variables: the answer builder, the two ids and the metrics
      map (`None` is the nil map the source starts from). */
  datatype Accumulator = Accumulator(
    answer: string,
    sessionId: string,
    messageId: string,
    metrics: Option<Object>)

  const Initial := Accumulator("", "", "", None)

  /** The effect of one decoded event on the accumulator. */
  function Step(acc: Accumulator, event: Object): (r: Accumulator)
    ensures !IsFulfillment(event) && !IsMetricsLog(event) ==> r == acc
    ensures IsFulfillment(event) ==> r.metrics == acc.metrics
    ensures IsMetricsLog(event) ==>
      r.answer == acc.answer && r.sessionId == acc.sessionId && r.messageId == acc.messageId
    ensures acc.answer <= r.answer
  {
    var afterFulfillment :=
      if IsFulfillment(event) then
        acc.(answer := acc.answer + StringField(event, "answer").GetOr(""),
             sessionId := StringField(event, "sessionId").GetOr(acc.sessionId),
             messageId := StringField(event, "messageId").GetOr(acc.messageId))
      else acc;
    if IsMetricsLog(event) && ObjectField(event, "publicMetrics").Some? then
      afterFulfillment.(metrics := ObjectField(event, "publicMetrics"))
    else afterFulfillment
  }

  /** The loop as a left fold over the lines that stops at the first `[DONE]`. */
  function Fold(acc: Accumulator, lines: seq<string>, parse: Parser): (r: Accumulator)
    ensures acc.answer <= r.answer
    decreases |lines|
  {
    if lines == [] then acc
    else match Classify(lines[0], parse)
      case Done => acc
      case NotData => Fold(acc, lines[1..], parse)
      case Malformed => Fold(acc, lines[1..], parse)
      case Parsed(event) => Fold(Step(acc, event), lines[1..], parse)
  }

  /** The final JSON document of stream mode (its `data` object). */
  datatype StreamData = StreamData(
    sessionId: string,
    messageId: string,
    answer: string,
    metrics: Option<Object>,
    status: string,
    contextMetadata: seq<ContextField>)

  datatype FinalResponse = FinalResponse(message: string, data: StreamData)

  /** The outcome of stream mode: no result after a read error, otherwise
      the accumulated fields wrapped in a completed response. */
  function StreamOutcome(lines: seq<string>, readError: bool, parse: Parser,
                         contextMetadata: seq<ContextField>): (r: Option<FinalResponse>)
    ensures r.None? <==> readError
    ensures r.Some? ==>
      && r.value.message == SuccessMessage
      && r.value.data.status == CompletedStatus
      && r.value.data.contextMetadata == contextMetadata
  {
    if readError then None
    else
      var acc := Fold(Initial, lines, parse);
      Some(FinalResponse(SuccessMessage,
        StreamData(acc.sessionId, acc.messageId, acc.answer, acc.metrics,
                   CompletedStatus, contextMetadata)))
  }

  /** The `for scanner.Scan()` loop of the source, with its `continue` and
      `break`, proved to compute `StreamOutcome`. */
  method ConsumeStream(lines: seq<string>, readError: bool, parse: Parser,
                       contextMetadata: seq<ContextField>) returns (result: Option<FinalResponse>)
    ensures result == StreamOutcome(lines, readError, parse, contextMetadata)
  {
    var answer, sessionId, messageId := "", "", "";
    var metrics: Option<Object> := None;
    var i := 0;
    while i < |lines|
      invariant 0 <= i <= |lines|
      invariant Fold(Initial, lines, parse)
             == Fold(Accumulator(answer, sessionId, messageId, metrics), lines[i..], parse)
    {
      ghost var before := Accumulator(answer, sessionId, messageId, metrics);
      assert lines[i..][1..] == lines[i + 1..];
      var line := lines[i];
      if DataPrefix <= line {
        var payload := TrimSpace(line[|DataPrefix|..]);
        if payload == DoneSentinel {
          break;
        }
        var decoded := parse(payload);
        if decoded.failed {
          i := i + 1;
          continue;
        }
        var event := decoded.document.GetOr(map[]);
        if IsFulfillment(event) {
          var text := StringField(event, "answer");
          if text.Some? {
            answer := answer + text.value;
          }
          var sid := StringField(event, "sessionId");
          if sid.Some? {
            sessionId := sid.value;
          }
          var mid := StringField(event, "messageId");
          if mid.Some? {
            messageId := mid.value;
          }
        }
        if IsMetricsLog(event) {
          var m := ObjectField(event, "publicMetrics");
          if m.Some? {
            metrics := m;
          }
        }
        assert Accumulator(answer, sessionId, messageId, metrics) == Step(before, event);
      }
      i := i + 1;
    }
    if readError {
      return None;
    }
    result := Some(FinalResponse(SuccessMessage,
      StreamData(sessionId, messageId, answer, metrics, CompletedStatus, contextMetadata)));
  }
}
