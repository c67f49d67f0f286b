/** Models the buffering of `KimiAgentResponseHandler` in server/kimi-agent-response-handler.js. */
module KimiHandler {
  import opened Common
  import opened LineBuffers

  /** `dispatched` is the log of the events handed to `dispatch`. */
  class KimiAgentResponseHandler<E> {
    const parse: string -> Option<E>
    var buffer: string
    var dispatched: seq<E>

    function Abs(): Decoder<E>
      reads this
    {
      Decoder(buffer, dispatched)
    }

    constructor (parse: string -> Option<E>)
      ensures Abs() == Decoder("", []) && this.parse == parse
    {
      this.parse := parse;
      buffer, dispatched := "", [];
    }

    method ProcessData(data: string)
      modifies this
      ensures Abs() == Fed(false, parse, old(Abs()), data)
      ensures old(dispatched) <= dispatched
      ensures Dispatches(parse, Init(Split(false, old(buffer) + data)), dispatched[|old(dispatched)|..])
    {
      var lines := Split(false, buffer + data);
      buffer := Last(lines);
      for i := 0 to |lines| - 1
        invariant buffer == Last(lines)
        invariant dispatched == old(dispatched) + Records(parse, lines[..i])
      {
        assert Init(lines[..i+1]) == lines[..i] && Last(lines[..i+1]) == lines[i];
        if !IsBlank(lines[i]) {
          var event := parse(lines[i]);
          if event.Some? { dispatched := dispatched + [event.value]; }
        }
      }
      assert lines[..|lines|-1] == Init(lines);
      AddedEvents(parse, old(dispatched), Init(lines));
    }

    method ForceFlush()
      modifies this
      ensures Abs() == Flushed(parse, old(Abs()))
      ensures old(dispatched) <= dispatched
      ensures Dispatches(parse, [old(buffer)], dispatched[|old(dispatched)|..])
    {
      AddedEvents(parse, dispatched, [buffer]);
      LoneRecord(parse, buffer);
      if !IsBlank(buffer) {
        var event := parse(buffer);
        if event.Some? { dispatched := dispatched + [event.value]; }
      }
      buffer := "";
    }

    /** A whole process output, chunk by chunk, and its close: what was dispatched depends only on
        the text. */
    method Stream(chunks: seq<string>)
      requires Abs() == Decoder("", [])
      modifies this
      ensures Abs() == Decoder("", Records(parse, Split(false, Concat(chunks))))
      ensures Dispatches(parse, Split(false, Concat(chunks)), dispatched)
    {
      for i := 0 to |chunks|
        invariant Abs() == FedAll(false, parse, Decoder("", []), chunks[..i])
      {
        assert Init(chunks[..i+1]) == chunks[..i];
        ProcessData(chunks[i]);
      }
      assert chunks[..|chunks|] == chunks;
      FlushedIsWhole(false, parse, chunks);
      ForceFlush();
    }
  }
}
