/** A reference description of stream mode, independent of the loop: the
    events that come before the first `[DONE]`, the concatenation of their
    answers, and for each tracked field the last event that sets it. The
    lemmas connect it to `Stream.Fold`, and so to `Stream.ConsumeStream`. */
module StreamSpec {
  import opened Wrappers
  import opened Json
  import opened Stream
  import opened Text

  /** The lines the loop gets to see: everything before the first `[DONE]`. */
  function UntilDone(lines: seq<string>, parse: Parser): (r: seq<string>)
    ensures r <= lines
    ensures forall i :: 0 <= i < |r| ==> !Classify(r[i], parse).Done?
    ensures |r| < |lines| ==> Classify(lines[|r|], parse).Done?
    decreases |lines|
  {
    if lines == [] || Classify(lines[0], parse).Done? then []
    else
      var rest := UntilDone(lines[1..], parse);
      assert forall i :: 0 < i <= |rest| ==> ([lines[0]] + rest)[i] == rest[i - 1];
      assert |rest| < |lines| - 1 ==> lines[|rest| + 1] == lines[1..][|rest|];
      [lines[0]] + rest
  }

  /** The decoded events of the `data:` lines, in order. */
  function Events(lines: seq<string>, parse: Parser): seq<Object>
    decreases |lines|
  {
    if lines == [] then []
    else
      var head := match Classify(lines[0], parse)
        case Parsed(event) => [event]
        case _ => [];
      head + Events(lines[1..], parse)
  }

  /** The text an event contributes to the answer: a string `answer` of a
      `fulfillment` event, nothing otherwise. */
  function AnswerText(event: Object): string {
    if IsFulfillment(event) then StringField(event, "answer").GetOr("") else ""
  }

  function Answers(events: seq<Object>): string {
    if events == [] then "" else AnswerText(events[0]) + Answers(events[1..])
  }

  function SessionIdOf(event: Object): Option<string> {
    if IsFulfillment(event) then StringField(event, "sessionId") else None
  }

  function MessageIdOf(event: Object): Option<string> {
    if IsFulfillment(event) then StringField(event, "messageId") else None
  }

  function MetricsOf(event: Object): Option<Object> {
    if IsMetricsLog(event) then ObjectField(event, "publicMetrics") else None
  }

  /** The value `pick` finds in the last event where it finds one. */
  function Last<T>(events: seq<Object>, pick: Object -> Option<T>): Option<T> {
    if events == [] then None
    else
      var n := |events| - 1;
      if pick(events[n]).Some? then pick(events[n]) else Last(events[..n], pick)
  }

  /** `Last` is what its name says: a value found in some event after which
      no event yields one, or nothing when no event yields one. */
  lemma {:induction false} LastIsLastSetter<T>(events: seq<Object>, pick: Object -> Option<T>)
    ensures Last(events, pick).Some? ==>
      exists i :: 0 <= i < |events| && pick(events[i]) == Last(events, pick)
        && (forall j :: i < j < |events| ==> pick(events[j]).None?)
    ensures Last(events, pick).None? ==> forall i :: 0 <= i < |events| ==> pick(events[i]).None?
    decreases |events|
  {
    if events != [] {
      var n := |events| - 1;
      if pick(events[n]).None? {
        LastIsLastSetter(events[..n], pick);
        assert forall i :: 0 <= i < n ==> events[..n][i] == events[i];
      }
    }
  }

  /** The accumulator `acc` becomes after the given events, by the reference
      description: answers appended, every other field taken from its last
      setter or kept. */
  function Summary(acc: Accumulator, events: seq<Object>): Accumulator {
    Accumulator(
      acc.answer + Answers(events),
      Last(events, SessionIdOf).GetOr(acc.sessionId),
      Last(events, MessageIdOf).GetOr(acc.messageId),
      if Last(events, MetricsOf).Some? then Last(events, MetricsOf) else acc.metrics)
  }

  /** Prepending an event: a later setter wins over it. */
  lemma {:induction false} LastCons<T>(event: Object, events: seq<Object>, pick: Object -> Option<T>)
    ensures Last([event] + events, pick)
         == if Last(events, pick).Some? then Last(events, pick) else pick(event)
    decreases |events|
  {
    if events != [] {
      var n := |events| - 1;
      assert ([event] + events)[..n + 1] == [event] + events[..n];
      LastCons(event, events[..n], pick);
    }
  }

  lemma SummaryCons(acc: Accumulator, event: Object, events: seq<Object>)
    ensures Summary(acc, [event] + events) == Summary(Step(acc, event), events)
  {
    var all := [event] + events;
    assert all[1..] == events;
    assert Answers(all) == AnswerText(event) + Answers(events);
    LastCons(event, events, SessionIdOf);
    LastCons(event, events, MessageIdOf);
    LastCons(event, events, MetricsOf);
  }

  /** The loop's fold agrees with the reference description over the events
      before the first `[DONE]`. */
  lemma {:induction false} FoldIsSummary(acc: Accumulator, lines: seq<string>, parse: Parser)
    ensures Fold(acc, lines, parse) == Summary(acc, Events(UntilDone(lines, parse), parse))
    decreases |lines|
  {
    if lines == [] {
      assert Summary(acc, []) == acc;
    } else {
      var kind := Classify(lines[0], parse);
      if kind.Done? {
        assert UntilDone(lines, parse) == [];
        assert Summary(acc, []) == acc;
      } else {
        var rest := UntilDone(lines[1..], parse);
        assert UntilDone(lines, parse) == [lines[0]] + rest;
        EventsCons(lines[0], rest, parse);
        if kind.Parsed? {
          FoldIsSummary(Step(acc, kind.event), lines[1..], parse);
          SummaryCons(acc, kind.event, Events(rest, parse));
        } else {
          FoldIsSummary(acc, lines[1..], parse);
        }
      }
    }
  }

  lemma EventsCons(line: string, lines: seq<string>, parse: Parser)
    ensures Events([line] + lines, parse)
         == if Classify(line, parse).Parsed? then [Classify(line, parse).event] + Events(lines, parse)
            else Events(lines, parse)
  {
    assert ([line] + lines)[1..] == lines;
  }

  /** What stream mode reports when no read error occurs: the in-order
      concatenation of the answers before `[DONE]`, and for each id and for
      the metrics the value of the last event that sets it (empty or absent
      when none does). */
  lemma StreamResultFields(lines: seq<string>, parse: Parser, contextMetadata: seq<ContextField>)
    ensures var events := Events(UntilDone(lines, parse), parse);
      var data := StreamOutcome(lines, false, parse, contextMetadata).value.data;
      && data.answer == Answers(events)
      && data.sessionId == Last(events, SessionIdOf).GetOr("")
      && data.messageId == Last(events, MessageIdOf).GetOr("")
      && data.metrics == Last(events, MetricsOf)
  {
    FoldIsSummary(Initial, lines, parse);
  }

  /** The first `[DONE]` line ends processing: it and everything after it
      have no effect. */
  lemma {:induction false} DoneEndsStream(acc: Accumulator, before: seq<string>, done: string,
                                          after: seq<string>, parse: Parser)
    requires Classify(done, parse).Done?
    ensures Fold(acc, before + [done] + after, parse) == Fold(acc, before, parse)
    decreases |before|
  {
    if before == [] {
      assert before + [done] + after == [done] + after;
    } else {
      assert (before + [done] + after)[1..] == before[1..] + [done] + after;
      match Classify(before[0], parse)
      case Done =>
      case NotData =>
        DoneEndsStream(acc, before[1..], done, after, parse);
      case Malformed =>
        DoneEndsStream(acc, before[1..], done, after, parse);
      case Parsed(event) =>
        DoneEndsStream(Step(acc, event), before[1..], done, after, parse);
    }
  }

  /** A line the accumulator ignores: no `data:` prefix, a payload the
      decoder reports an error for, or an event that is neither `fulfillment` nor
      `metricsLog`. */
  predicate Inert(line: string, parse: Parser) {
    match Classify(line, parse)
    case NotData => true
    case Malformed => true
    case Parsed(event) => !IsFulfillment(event) && !IsMetricsLog(event)
    case Done => false
  }

  /** Inserting an inert line anywhere changes nothing: in particular a
      malformed payload does not stop the lines after it from counting. */
  lemma {:induction false} InertLineIgnored(acc: Accumulator, before: seq<string>, line: string,
                                            after: seq<string>, parse: Parser)
    requires Inert(line, parse)
    ensures Fold(acc, before + [line] + after, parse) == Fold(acc, before + after, parse)
    decreases |before|
  {
    if before == [] {
      assert before + [line] + after == [line] + after;
      assert ([line] + after)[1..] == after;
      assert before + after == after;
      match Classify(line, parse)
      case Parsed(event) =>
        assert Step(acc, event) == acc;
      case _ =>
    } else {
      assert (before + [line] + after)[1..] == before[1..] + [line] + after;
      assert (before + after)[1..] == before[1..] + after;
      match Classify(before[0], parse)
      case Done =>
      case NotData =>
        InertLineIgnored(acc, before[1..], line, after, parse);
      case Malformed =>
        InertLineIgnored(acc, before[1..], line, after, parse);
      case Parsed(event) =>
        InertLineIgnored(Step(acc, event), before[1..], line, after, parse);
    }
  }

  /** A `data:` line with one space before a payload that has no space at
      either end carries exactly that payload. */
  lemma PayloadAfterSpace(payload: string)
    requires Unpadded(payload)
    ensures DataPrefix <= DataPrefix + " " + payload
    ensures Payload(DataPrefix + " " + payload) == payload
  {
    assert (DataPrefix + " " + payload)[|DataPrefix|..] == " " + payload + "";
    TrimSpacePadded(" ", payload, "");
  }

  /** A payload as the server sends it: no space at either end. */
  predicate Unpadded(payload: string) {
    payload != [] ==> !IsSpace(payload[0]) && !IsSpace(payload[|payload| - 1])
  }

  /** A `data:` line with one space before an unpadded payload decodes as
      that payload does. */
  lemma DataLineKind(parse: Parser, payload: string)
    requires Unpadded(payload) && payload != DoneSentinel
    ensures Classify(DataPrefix + " " + payload, parse)
         == if parse(payload).failed then Malformed else Parsed(parse(payload).document.GetOr(map[]))
  {
    PayloadAfterSpace(payload);
  }

  lemma DoneLineKind(parse: Parser)
    ensures Classify(DataPrefix + " " + DoneSentinel, parse) == Done
  {
    PayloadAfterSpace(DoneSentinel);
  }

  /** Two fulfillment chunks, a metrics event and `[DONE]` give the answer
      "Hello", the ids of the first chunk and the metrics of the log event.
      The payload texts matter only through what the decoder makes of them. */
  lemma StreamExample(parse: Parser, p1: string, p2: string, p3: string,
                      contextMetadata: seq<ContextField>)
    requires Unpadded(p1) && Unpadded(p2) && Unpadded(p3)
    requires p1 != DoneSentinel && p2 != DoneSentinel && p3 != DoneSentinel
    requires parse(p1) == Decoding(Some(map["eventType" := Str("fulfillment"), "answer" := Str("He"),
                                            "sessionId" := Str("S1"), "messageId" := Str("M1")]), false)
    requires parse(p2) == Decoding(Some(map["eventType" := Str("fulfillment"), "answer" := Str("llo")]), false)
    requires parse(p3) == Decoding(Some(map["eventType" := Str("metricsLog"),
                                            "publicMetrics" := Obj(map["tokens" := Num("5")])]), false)
    ensures StreamOutcome([DataPrefix + " " + p1, DataPrefix + " " + p2, DataPrefix + " " + p3,
                           DataPrefix + " " + DoneSentinel], false, parse, contextMetadata)
      == Some(FinalResponse(SuccessMessage,
           StreamData("S1", "M1", "Hello", Some(map["tokens" := Num("5")]), CompletedStatus, contextMetadata)))
  {
    var l1, l2, l3, l4 := DataPrefix + " " + p1, DataPrefix + " " + p2, DataPrefix + " " + p3,
                          DataPrefix + " " + DoneSentinel;
    DataLineKind(parse, p1);
    DataLineKind(parse, p2);
    DataLineKind(parse, p3);
    DoneLineKind(parse);
    var a1, a2, a3 := ExampleEvents(parse(p1).document.value, parse(p2).document.value,
                                    parse(p3).document.value);
    assert Fold(a3, [l4], parse) == a3;
    assert [l3, l4][1..] == [l4];
    assert Fold(a2, [l3, l4], parse) == Fold(a3, [l4], parse);
    assert [l2, l3, l4][1..] == [l3, l4];
    assert Fold(a1, [l2, l3, l4], parse) == Fold(a2, [l3, l4], parse);
    assert [l1, l2, l3, l4][1..] == [l2, l3, l4];
    assert Fold(Initial, [l1, l2, l3, l4], parse) == Fold(a1, [l2, l3, l4], parse);
  }

  lemma ExampleEvents(e1: Object, e2: Object, e3: Object) returns (a1: Accumulator, a2: Accumulator, a3: Accumulator)
    requires e1 == map["eventType" := Str("fulfillment"), "answer" := Str("He"),
                       "sessionId" := Str("S1"), "messageId" := Str("M1")]
    requires e2 == map["eventType" := Str("fulfillment"), "answer" := Str("llo")]
    requires e3 == map["eventType" := Str("metricsLog"), "publicMetrics" := Obj(map["tokens" := Num("5")])]
    ensures a1 == Step(Initial, e1) && a2 == Step(a1, e2) && a3 == Step(a2, e3)
    ensures a3 == Accumulator("Hello", "S1", "M1", Some(map["tokens" := Num("5")]))
  {
    a1 := Step(Initial, e1);
    a2 := Step(a1, e2);
    a3 := Step(a2, e3);
  }
}
