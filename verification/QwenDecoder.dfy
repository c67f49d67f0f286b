/** Models the stdout decoder of server/qwen-cli.js and the fold of `parseQwenEvent`. */
module QwenDecoder {
  import opened Common
  import opened LineBuffers

  /** A parsed record as `parseQwenEvent` distinguishes them: `Assistant` carries the text of the
      content; a result's `error` field may be a string, an object with a message, or neither. */
  datatype Event =
    | TextDelta(text: string)
    | Assistant(text: string)
    | Result(text: string, isError: bool, errorSubtype: bool, errorString: Option<string>, errorMessage: string)
    | Other

  const API_ERROR_PREFIX := "[API Error: "

  function TrimStart(s: string): string { if s != "" && IsSpace(s[0]) then TrimStart(s[1..]) else s }

  /** An upstream failure arrives as a successful result whose text starts with the prefix. */
  predicate Failed(e: Event)
    requires e.Result?
  {
    e.isError || e.errorSubtype || API_ERROR_PREFIX <= TrimStart(e.text)
  }

  function Reason(e: Event): string
    requires e.Result?
  {
    if e.errorString.Some? then e.errorString.value
    else if e.errorMessage != "" then e.errorMessage
    else if e.text != "" then e.text
    else "Qwen Code reported a failed result."
  }

  datatype State = State(
    assistantText: string, assistantFallback: string, resultSeen: bool, resultError: bool, error: string)

  const START := State("", "", false, false, "")

  function Apply(s: State, e: Event): State {
    match e
    case TextDelta(text) => s.(assistantText := s.assistantText + text)
    case Assistant(text) => if s.assistantText == "" then s.(assistantFallback := text) else s
    case Result(text, _, _, _, _) =>
      s.(resultSeen := true, resultError := Failed(e),
         assistantFallback := if s.assistantText == "" && s.assistantFallback == "" then text else s.assistantFallback,
         error := if Failed(e) then Reason(e) else s.error)
    case Other => s
  }

  function Fold(s: State, events: seq<Event>): State {
    if events == [] then s else Apply(Fold(s, Init(events)), Last(events))
  }

  /** `state.assistantText || state.assistantFallback` */
  function Answer(s: State): string { if s.assistantText != "" then s.assistantText else s.assistantFallback }

  class QwenRun {
    const parse: string -> Option<Event>
    var buffer: string
    var assistantText: string
    var assistantFallback: string
    var resultSeen: bool
    var resultError: bool
    var error: string
    ghost var events: seq<Event>

    function Abs(): State
      reads this
    {
      State(assistantText, assistantFallback, resultSeen, resultError, error)
    }

    ghost predicate Valid()
      reads this
    {
      Abs() == Fold(START, events)
    }

    constructor (parse: string -> Option<Event>)
      ensures Valid() && buffer == "" && events == [] && this.parse == parse
    {
      this.parse := parse;
      buffer, assistantText, assistantFallback, error := "", "", "", "";
      resultSeen, resultError, events := false, false, [];
    }

    method ParseQwenEvent(e: Event)
      requires Valid()
      modifies this
      ensures Valid() && events == old(events) + [e] && buffer == old(buffer)
      ensures Abs() == Apply(old(Abs()), e)
    {
      match e {
        case TextDelta(text) => assistantText := assistantText + text;
        case Assistant(text) => if assistantText == "" { assistantFallback := text; }
        case Result(text, _, _, _, _) =>
          resultSeen, resultError := true, Failed(e);
          if assistantText == "" && assistantFallback == "" && text != "" { assistantFallback := text; }
          if resultError { error := Reason(e); }
        case Other =>
      }
      events := events + [e];
      assert Init(events) == old(events);
    }

    method ParseLine(line: string)
      requires Valid()
      modifies this
      ensures Valid() && events == old(events) + Record(parse, line) && buffer == old(buffer)
    {
      if !IsBlank(line) {
        var event := parse(line);
        if event.Some? { ParseQwenEvent(event.value); }
      }
    }

    method OnData(chunk: string)
      requires Valid()
      modifies this
      ensures Valid() && Decoder(buffer, events) == Fed(true, parse, old(Decoder(buffer, events)), chunk)
      ensures old(events) <= events
      ensures Dispatches(parse, Init(Split(true, old(buffer) + chunk)), events[|old(events)|..])
    {
      var lines := Split(true, buffer + chunk);
      buffer := Last(lines);
      for i := 0 to |lines| - 1
        invariant Valid() && buffer == Last(lines)
        invariant events == old(events) + Records(parse, lines[..i])
      {
        assert Init(lines[..i+1]) == lines[..i] && Last(lines[..i+1]) == lines[i];
        ParseLine(lines[i]);
      }
      assert lines[..|lines|-1] == Init(lines);
      AddedEvents(parse, old(events), Init(lines));
    }

    /** The `close` handler: the final record needs no line end. */
    method OnClose()
      requires Valid()
      modifies this
      ensures Valid() && events == old(events) + Record(parse, old(buffer))
      ensures Dispatches(parse, [old(buffer)], events[|old(events)|..])
    {
      AddedEvents(parse, events, [buffer]);
      LoneRecord(parse, buffer);
      ParseLine(buffer);
    }

    /** A whole process output, chunk by chunk, and its close: the run ends in the same state for
        every split of the text. */
    method Stream(chunks: seq<string>)
      requires Valid() && buffer == "" && events == []
      modifies this
      ensures Abs() == Fold(START, events) && Dispatches(parse, Split(true, Concat(chunks)), events)
    {
      for i := 0 to |chunks|
        invariant Valid() && Decoder(buffer, events) == FedAll(true, parse, Decoder("", []), chunks[..i])
      {
        assert Init(chunks[..i+1]) == chunks[..i];
        OnData(chunks[i]);
      }
      assert chunks[..|chunks|] == chunks;
      FlushedIsWhole(true, parse, chunks);
      OnClose();
    }
  }

  // ---------------------------------------------------------------- what the answer is

  function Deltas(events: seq<Event>): string {
    if events == [] then "" else Deltas(Init(events)) + (if Last(events).TextDelta? then Last(events).text else "")
  }

  /** The index after the last full assistant event, zero if there is none. */
  function AfterAssistant(events: seq<Event>): (n: nat)
    ensures n <= |events|
    ensures n > 0 ==> events[n-1].Assistant?
    ensures forall k :: n <= k < |events| ==> !events[k].Assistant?
  {
    if events == [] then 0 else if Last(events).Assistant? then |events| else AfterAssistant(Init(events))
  }

  /** The first non-empty result text of `events`, if any. */
  function FirstResult(events: seq<Event>): string {
    if events == [] then ""
    else if events[0].Result? && events[0].text != "" then events[0].text
    else FirstResult(events[1..])
  }

  function LastAssistant(events: seq<Event>): string {
    if AfterAssistant(events) == 0 then "" else events[AfterAssistant(events) - 1].text
  }

  lemma {:induction false} FirstResultSnoc(events: seq<Event>, e: Event)
    ensures FirstResult(events + [e])
         == if FirstResult(events) != "" then FirstResult(events) else if e.Result? then e.text else ""
    decreases |events|
  {
    if events != [] {
      FirstResultSnoc(events[1..], e);
      assert (events + [e])[1..] == events[1..] + [e];
    } else {
      assert FirstResult([e][1..]) == "";
    }
  }

  lemma {:induction false} TextIsDeltas(events: seq<Event>)
    ensures Fold(START, events).assistantText == Deltas(events)
    decreases |events|
  {
    if events != [] { TextIsDeltas(Init(events)); }
  }

  /** The answer of a run without text deltas. */
  function Fallback(events: seq<Event>): string {
    if LastAssistant(events) != "" then LastAssistant(events) else FirstResult(events[AfterAssistant(events)..])
  }

  lemma FallbackSnoc(events: seq<Event>, e: Event)
    ensures Fallback(events + [e])
         == if e.Assistant? then e.text
            else if e.Result? && Fallback(events) == "" then e.text
            else Fallback(events)
  {
    var all, n := events + [e], AfterAssistant(events);
    assert Init(all) == events && Last(all) == e;
    if e.Assistant? {
      assert all[|all|..] == [];
    } else {
      FirstResultSnoc(events[n..], e);
      assert all[n..] == events[n..] + [e];
    }
  }

  lemma {:induction false} FallbackWithoutDeltas(events: seq<Event>)
    requires Deltas(events) == ""
    ensures Fold(START, events).assistantFallback == Fallback(events)
    decreases |events|
  {
    if events != [] {
      var init, e := Init(events), Last(events);
      assert events == init + [e];
      assert Deltas(init) == "";
      FallbackWithoutDeltas(init);
      TextIsDeltas(init);
      FallbackSnoc(init, e);
    }
  }

  /** The answer is the concatenation of the text deltas if that is not empty; else the text of the
      last full assistant event if that is not empty; else the first non-empty result text that
      follows that event. */
  lemma AnswerIs(events: seq<Event>)
    ensures Answer(Fold(START, events))
         == if Deltas(events) != "" then Deltas(events)
            else if LastAssistant(events) != "" then LastAssistant(events)
            else FirstResult(events[AfterAssistant(events)..])
  {
    assert Fallback(events)
        == if LastAssistant(events) != "" then LastAssistant(events) else FirstResult(events[AfterAssistant(events)..]);
    TextIsDeltas(events);
    if Deltas(events) == "" { FallbackWithoutDeltas(events); }
  }

  /** The text starts with the prefix of an upstream failure, white space aside. */
  predicate StartsWithApiError(s: string) {
    exists k :: 0 <= k <= |s| && (forall i :: 0 <= i < k ==> IsSpace(s[i])) && API_ERROR_PREFIX <= s[k..]
  }

  lemma {:induction false} TrimmedStart(s: string)
    ensures API_ERROR_PREFIX <= TrimStart(s) <==> StartsWithApiError(s)
    decreases |s|
  {
    if s != "" && IsSpace(s[0]) {
      TrimmedStart(s[1..]);
      if k :| 0 <= k <= |s| && (forall i :: 0 <= i < k ==> IsSpace(s[i])) && API_ERROR_PREFIX <= s[k..] {
        assert s[k..][0] == API_ERROR_PREFIX[0] && k > 0;
        assert s[1..][k-1..] == s[k..];
      }
      if StartsWithApiError(s[1..]) {
        var k :| 0 <= k <= |s[1..]| && (forall i :: 0 <= i < k ==> IsSpace(s[1..][i]))
              && API_ERROR_PREFIX <= s[1..][k..];
        assert s[k+1..] == s[1..][k..];
        assert forall i :: 0 < i < k + 1 ==> s[i] == s[1..][i-1];
      }
    } else {
      assert s[0..] == s;
    }
  }

  /** A result that reports a failure: by its flag, its subtype or its text. */
  predicate ReportsFailure(e: Event) {
    e.Result? && (e.isError || e.errorSubtype || StartsWithApiError(e.text))
  }

  lemma FailedReports(e: Event)
    requires e.Result?
    ensures Failed(e) <==> ReportsFailure(e)
  {
    TrimmedStart(e.text);
  }

  /** The verdict is that of the last result event: whether it reports a failure. */
  lemma {:induction false} VerdictIsLastResult(events: seq<Event>, i: nat)
    requires i < |events| && events[i].Result? && forall k :: i < k < |events| ==> !events[k].Result?
    ensures Fold(START, events).resultSeen && (Fold(START, events).resultError <==> ReportsFailure(events[i]))
    decreases |events|
  {
    if i < |events| - 1 { VerdictIsLastResult(Init(events), i); } else { FailedReports(events[i]); }
  }

  /** The reason is that of the last result that reports a failure: its error if that is a string, else
      the message of its error, else its text, else a fixed one. */
  lemma {:induction false} ReasonIsLastFailure(events: seq<Event>, i: nat)
    requires i < |events| && ReportsFailure(events[i]) && forall k :: i < k < |events| ==> !ReportsFailure(events[k])
    ensures var e, error := events[i], Fold(START, events).error;
            if e.errorString.Some? then error == e.errorString.value
            else if e.errorMessage != "" then error == e.errorMessage
            else if e.text != "" then error == e.text
            else error == "Qwen Code reported a failed result."
    decreases |events|
  {
    var last := Last(events);
    if last.Result? { FailedReports(last); }
    if i < |events| - 1 { ReasonIsLastFailure(Init(events), i); }
  }

  /** Without such a result there is no reason, and without any result no verdict. */
  lemma {:induction false} NoFailureNoReason(events: seq<Event>)
    requires forall k :: 0 <= k < |events| ==> !ReportsFailure(events[k])
    ensures Fold(START, events).error == "" && !Fold(START, events).resultError
    ensures Fold(START, events).resultSeen <==> exists k :: 0 <= k < |events| && events[k].Result?
    decreases |events|
  {
    if events != [] {
      var last := Last(events);
      if last.Result? { FailedReports(last); }
      NoFailureNoReason(Init(events));
    }
  }

  /** For any two splits of the same text into chunks the fold ends with the same answer. */
  lemma {:induction false} SameAnswer(parse: string -> Option<Event>, a: seq<string>, b: seq<string>)
    requires Concat(a) == Concat(b)
    ensures Answer(Fold(START, Flushed(parse, FedAll(true, parse, Decoder("", []), a)).events))
         == Answer(Fold(START, Flushed(parse, FedAll(true, parse, Decoder("", []), b)).events))
  {
    ChunkingDoesNotMatter(true, parse, a, b);
  }
}
