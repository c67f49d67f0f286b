/** Models `readNewLines` of `createClaudeAgentSidecarPoller` in server/claude-sdk.js: the
    incremental tail of one agent file. The file is single-byte text that only grows. */
module SidecarTail {
  import opened Common
  import opened LineBuffers

  const READ_LIMIT: nat := 262_144

  datatype Tail<E> = Tail(offset: nat, pending: string, events: seq<E>)

  function ReadLength(size: nat, offset: nat): nat
    requires offset < size
  {
    Min(size - offset, READ_LIMIT)
  }

  /** One poll: `size` is what `stat` said, `got` how many bytes the read then returned. */
  predicate PollOk<E>(t: Tail<E>, file: string, size: nat, got: nat) {
    size <= |file| && (t.offset < size ==> got <= ReadLength(size, t.offset))
  }

  function Polled<E>(parse: string -> Option<E>, t: Tail<E>, file: string, size: nat, got: nat): Tail<E>
    requires PollOk(t, file, size, got)
  {
    if size <= t.offset then t
    else
      var d := Fed(false, parse, Decoder(t.pending, t.events), file[t.offset..t.offset + got]);
      Tail(t.offset + got, d.buffer, d.events)
  }

  /** An agent of the poller; `returned` is the ghost log of what the polls returned. */
  class Agent<E> {
    const parse: string -> Option<E>
    var offset: nat
    var pending: string
    ghost var returned: seq<E>

    ghost function Abs(): Tail<E>
      reads this
    {
      Tail(offset, pending, returned)
    }

    constructor (parse: string -> Option<E>)
      ensures Abs() == Tail(0, "", []) && this.parse == parse
    {
      this.parse := parse;
      offset, pending, returned := 0, "", [];
    }

    method ReadNewLines(file: string, size: nat, bytesRead: nat) returns (events: seq<E>)
      requires PollOk(Abs(), file, size, bytesRead)
      modifies this
      ensures Abs() == Polled(parse, old(Abs()), file, size, bytesRead)
      ensures returned == old(returned) + events
      ensures if size <= old(offset) then events == []
              else
                var text := old(pending) + file[old(offset)..old(offset) + bytesRead];
                Dispatches(parse, Init(Split(false, text)), events)
    {
      if size <= offset { return []; }
      var buffer := file[offset..offset + bytesRead];
      offset := offset + bytesRead;
      var lines := Split(false, pending + buffer);
      pending := Last(lines);
      events := [];
      for i := 0 to |lines| - 1
        invariant offset == old(offset) + bytesRead && pending == Last(lines) && returned == old(returned)
        invariant events == Records(parse, lines[..i])
      {
        assert Init(lines[..i+1]) == lines[..i] && Last(lines[..i+1]) == lines[i];
        events := events + Record(parse, lines[i]);
      }
      returned := returned + events;
      RecordsAreTheLines(parse, Init(lines));
    }

    /** Polls with full reads of a file that has stopped growing. */
    method DrainStatic(file: string) returns (polls: nat)
      requires Follows(parse, Abs(), file)
      modifies this
      ensures polls == PollsNeeded(|file| - old(offset))
      ensures offset == |file| && Decoder(pending, returned) == Whole(false, parse, file)
    {
      polls := 0;
      while offset < |file|
        invariant Follows(parse, Abs(), file)
        invariant polls + PollsNeeded(|file| - offset) == PollsNeeded(|file| - old(offset))
        decreases |file| - offset
      {
        ghost var before := Abs();
        var _ := ReadNewLines(file, |file|, ReadLength(|file|, offset));
        PollFollows(parse, before, file, |file|, ReadLength(|file|, before.offset));
        polls := polls + 1;
      }
      assert file[..|file|] == file;
    }
  }

  /** `ceil(remaining / READ_LIMIT)` */
  function PollsNeeded(remaining: int): int
    requires remaining >= 0
  {
    (remaining + READ_LIMIT - 1) / READ_LIMIT
  }

  // ---------------------------------------------------------------- any mix of appends and polls

  /** The polls returned exactly what a whole-file read of the first `offset` bytes gives; the
      unfinished last line is pending. */
  predicate Follows<E(==)>(parse: string -> Option<E>, t: Tail<E>, file: string) {
    && t.offset <= |file|
    && Decoder(t.pending, t.events) == Whole(false, parse, file[..t.offset])
  }

  datatype Step = Append(text: string) | Poll(size: nat, got: nat)

  datatype World<E> = World(file: string, tail: Tail<E>)

  predicate Enabled<E>(w: World<E>, step: Step) { step.Poll? ==> PollOk(w.tail, w.file, step.size, step.got) }

  function Next<E>(parse: string -> Option<E>, w: World<E>, step: Step): World<E>
    requires Enabled(w, step)
  {
    match step
    case Append(text) => w.(file := w.file + text)
    case Poll(size, got) => w.(tail := Polled(parse, w.tail, w.file, size, got))
  }

  ghost predicate IsRun<E>(parse: string -> Option<E>, ws: seq<World<E>>, steps: seq<Step>) {
    && |ws| == |steps| + 1 && ws[0].tail == Tail(0, "", [])
    && forall i :: 0 <= i < |steps| ==> Enabled(ws[i], steps[i]) && ws[i+1] == Next(parse, ws[i], steps[i])
  }

  lemma PollFollows<E>(parse: string -> Option<E>, t: Tail<E>, file: string, size: nat, got: nat)
    requires Follows(parse, t, file) && PollOk(t, file, size, got)
    ensures Follows(parse, Polled(parse, t, file, size, got), file)
  {
    if t.offset < size {
      var a, b := file[..t.offset], file[t.offset..t.offset + got];
      assert file[..t.offset + got] == a + b;
      FedExtends(false, parse, a, b);
    }
  }

  lemma {:induction false} TailRefinesWholeFile<E>(parse: string -> Option<E>, ws: seq<World<E>>,
                                                   steps: seq<Step>, i: nat)
    requires IsRun(parse, ws, steps) && i < |ws|
    ensures Follows(parse, ws[i].tail, ws[i].file)
    decreases i
  {
    if i > 0 {
      TailRefinesWholeFile(parse, ws, steps, i - 1);
      var w, offset := ws[i-1], ws[i-1].tail.offset;
      match steps[i-1]
      case Append(text) => assert (w.file + text)[..offset] == w.file[..offset];
      case Poll(size, got) => PollFollows(parse, w.tail, w.file, size, got);
    }
    else { assert ws[0].file[..0] == "" && Split(false, "") == [""]; }
  }

  /** The finished lines, each with its newline, followed by `pending`, are the first `offset`
      bytes of the file. */
  lemma {:induction false} LinesAndPendingAreThePrefix<E>(parse: string -> Option<E>, ws: seq<World<E>>,
                                                          steps: seq<Step>, i: nat) returns (lines: seq<string>)
    requires IsRun(parse, ws, steps) && i < |ws|
    ensures ws[i].tail.offset <= |ws[i].file| && ws[i].tail.events == Records(parse, lines)
    ensures Dispatches(parse, lines, ws[i].tail.events)
    ensures Joined(lines + [ws[i].tail.pending]) == ws[i].file[..ws[i].tail.offset]
    ensures forall k :: 0 <= k < |lines| ==> '\n' !in lines[k]
  {
    TailRefinesWholeFile(parse, ws, steps, i);
    lines := PrefixLines(parse, ws[i].tail, ws[i].file);
    RecordsAreTheLines(parse, lines);
  }

  lemma {:induction false} PrefixLines<E>(parse: string -> Option<E>, t: Tail<E>, file: string)
      returns (lines: seq<string>)
    requires Follows(parse, t, file)
    ensures t.events == Records(parse, lines) && Joined(lines + [t.pending]) == file[..t.offset]
    ensures forall k :: 0 <= k < |lines| ==> '\n' !in lines[k]
  {
    var all := Split(false, file[..t.offset]);
    SplitLosesNothing(file[..t.offset]);
    lines := Init(all);
    assert lines + [t.pending] == all;
  }

  // ---------------------------------------------------------------- how many polls it takes

  function AfterFullPolls(size: nat, offset: nat, polls: nat): nat
    requires offset <= size
    ensures AfterFullPolls(size, offset, polls) <= size
    decreases polls
  {
    if polls == 0 then offset
    else
      var o := AfterFullPolls(size, offset, polls - 1);
      if o < size then o + ReadLength(size, o) else o
  }

  lemma {:induction false} FullPollsReach(size: nat, offset: nat, polls: nat)
    requires offset <= size
    ensures AfterFullPolls(size, offset, polls) == Min(size, offset + polls * READ_LIMIT)
    decreases polls
  {
    if polls > 0 { FullPollsReach(size, offset, polls - 1); }
  }

  /** Full reads of a file that no longer grows reach its end after exactly ceil(remaining / 262144)
      polls, not one sooner. */
  lemma ReachesEndExactly(size: nat, offset: nat, polls: nat)
    requires offset <= size
    ensures AfterFullPolls(size, offset, polls) == size <==> polls >= PollsNeeded(size - offset)
  {
    FullPollsReach(size, offset, polls);
  }
}
