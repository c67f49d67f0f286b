/** The line buffering shared by the stream decoders of server/kimi-agent-response-handler.js (lines
    end in LF) and server/qwen-cli.js (lines end in LF or CRLF). `parse` stands for JSON.parse and
    gives None where that throws. */
module LineBuffers {
  import opened Common

  /** The length of the line end at the start of `s`, zero if there is none. */
  function LineEnd(crlf: bool, s: string): (n: nat)
    ensures n <= |s|
  {
    if s == "" then 0
    else if s[0] == '\n' then 1
    else if crlf && |s| >= 2 && s[0] == '\r' && s[1] == '\n' then 2
    else 0
  }

  /** `s.split('\n')`, or `s.split(/\r?\n/)` when `crlf`. */
  function Split(crlf: bool, s: string): (lines: seq<string>)
    ensures lines != []
    decreases |s|
  {
    if s == "" then [""]
    else if LineEnd(crlf, s) > 0 then [""] + Split(crlf, s[LineEnd(crlf, s)..])
    else
      var rest := Split(crlf, s[1..]);
      [[s[0]] + rest[0]] + rest[1..]
  }

  function Last<T>(s: seq<T>): T
    requires s != []
  {
    s[|s|-1]
  }

  function Init<T>(s: seq<T>): seq<T>
    requires s != []
  {
    s[..|s|-1]
  }

  /** White space as `String.prototype.trim` understands it. */
  predicate IsSpace(c: char) {
    var n := c as int;
    9 <= n <= 13 || n == 32 || n == 0xA0 || n == 0x1680 || 0x2000 <= n <= 0x200A
    || n == 0x2028 || n == 0x2029 || n == 0x202F || n == 0x205F || n == 0x3000 || n == 0xFEFF
  }

  predicate IsBlank(line: string) { forall i :: 0 <= i < |line| ==> IsSpace(line[i]) }

  function Record<E>(parse: string -> Option<E>, line: string): seq<E> {
    if !IsBlank(line) && parse(line).Some? then [parse(line).value] else []
  }

  function Records<E>(parse: string -> Option<E>, lines: seq<string>): seq<E> {
    if lines == [] then [] else Records(parse, Init(lines)) + Record(parse, Last(lines))
  }

  /** The partial line kept between chunks and the records dispatched so far. */
  datatype Decoder<E> = Decoder(buffer: string, events: seq<E>)

  function Fed<E>(crlf: bool, parse: string -> Option<E>, d: Decoder<E>, chunk: string): Decoder<E> {
    var lines := Split(crlf, d.buffer + chunk);
    Decoder(Last(lines), d.events + Records(parse, Init(lines)))
  }

  function FedAll<E>(crlf: bool, parse: string -> Option<E>, d: Decoder<E>, chunks: seq<string>): Decoder<E> {
    if chunks == [] then d else Fed(crlf, parse, FedAll(crlf, parse, d, Init(chunks)), Last(chunks))
  }

  function Flushed<E>(parse: string -> Option<E>, d: Decoder<E>): Decoder<E> {
    Decoder("", d.events + Record(parse, d.buffer))
  }

  function Concat(chunks: seq<string>): string {
    if chunks == [] then "" else Concat(Init(chunks)) + Last(chunks)
  }

  // ---------------------------------------------------------------- what is dispatched

  /** A line that says something: it has a character that is no white space, and it parses. */
  predicate Says<E>(parse: string -> Option<E>, line: string) {
    (exists i :: 0 <= i < |line| && !IsSpace(line[i])) && parse(line).Some?
  }

  /** `events` are the values of the lines numbered `at`, in line order, and no other line says
      anything. */
  ghost predicate Picks<E>(parse: string -> Option<E>, lines: seq<string>, events: seq<E>, at: seq<nat>) {
    && |at| == |events|
    && (forall j, k :: 0 <= j < k < |at| ==> at[j] < at[k])
    && (forall j :: 0 <= j < |at| ==>
          at[j] < |lines| && Says(parse, lines[at[j]]) && parse(lines[at[j]]).value == events[j])
    && (forall n: nat :: n < |lines| && Says(parse, lines[n]) ==> n in at)
  }

  /** `events` are exactly the values of the lines that say something, in line order. */
  ghost predicate Dispatches<E>(parse: string -> Option<E>, lines: seq<string>, events: seq<E>) {
    exists at :: Picks(parse, lines, events, at)
  }

  lemma BlankSaysNothing<E>(parse: string -> Option<E>, line: string)
    ensures Record(parse, line) == if Says(parse, line) then [parse(line).value] else []
  {
  }

  lemma OneMoreLine<E>(parse: string -> Option<E>, init: seq<string>, events: seq<E>, at: seq<nat>, line: string)
    requires Picks(parse, init, events, at)
    ensures if Says(parse, line) then Picks(parse, init + [line], events + [parse(line).value], at + [|init|])
            else Picks(parse, init + [line], events, at)
  {
    var lines := init + [line];
    assert lines[|init|] == line && forall n :: 0 <= n < |init| ==> lines[n] == init[n];
    var all := if Says(parse, line) then at + [|init|] else at;
    forall n: nat | n < |lines| && Says(parse, lines[n]) ensures n in all {
      if n == |init| { assert all[|all|-1] == n; } else { assert n in at; }
    }
  }

  lemma {:induction false} RecordsPicked<E>(parse: string -> Option<E>, lines: seq<string>) returns (at: seq<nat>)
    ensures Picks(parse, lines, Records(parse, lines), at)
    decreases |lines|
  {
    if lines == [] {
      at := [];
    } else {
      var init, line := Init(lines), Last(lines);
      var before := RecordsPicked(parse, init);
      OneMoreLine(parse, init, Records(parse, init), before, line);
      BlankSaysNothing(parse, line);
      assert lines == init + [line];
      at := if Says(parse, line) then before + [|init|] else before;
    }
  }

  /** Every line with a character that is no white space and that parses gives exactly its value, in
      line order; no other line gives anything. */
  lemma RecordsAreTheLines<E>(parse: string -> Option<E>, lines: seq<string>)
    ensures Dispatches(parse, lines, Records(parse, lines))
  {
    var at := RecordsPicked(parse, lines);
  }

  // ---------------------------------------------------------------- splitting

  function Joined(lines: seq<string>): string
    requires lines != []
  {
    if |lines| == 1 then lines[0] else lines[0] + "\n" + Joined(lines[1..])
  }

  /** Splitting on LF loses nothing, and no line holds an LF. */
  lemma {:induction false} SplitLosesNothing(s: string)
    ensures Joined(Split(false, s)) == s
    ensures forall k :: 0 <= k < |Split(false, s)| ==> '\n' !in Split(false, s)[k]
    decreases |s|
  {
    if s != "" {
      SplitLosesNothing(s[1..]);
      var rest := Split(false, s[1..]);
      if s[0] == '\n' {
        assert ([""] + rest)[1..] == rest;
        assert s == "\n" + s[1..];
      } else {
        assert ([[s[0]] + rest[0]] + rest[1..])[1..] == rest[1..];
        assert s == [s[0]] + s[1..];
        if |rest| > 1 { assert [s[0]] + Joined(rest) == ([s[0]] + rest[0]) + "\n" + Joined(rest[1..]); }
      }
    }
  }

  function Grown(c: char, lines: seq<string>): seq<string>
    requires lines != []
  {
    [[c] + lines[0]] + lines[1..]
  }

  lemma SplitPlain(crlf: bool, s: string)
    requires s != "" && LineEnd(crlf, s) == 0
    ensures Split(crlf, s) == Grown(s[0], Split(crlf, s[1..]))
  {
  }

  lemma SplitBreak(crlf: bool, s: string, n: nat)
    requires LineEnd(crlf, s) == n > 0
    ensures Split(crlf, s) == [""] + Split(crlf, s[n..])
  {
  }

  function StripCr(line: string): string {
    if line != "" && Last(line) == '\r' then Init(line) else line
  }

  /** `a` is `b` with one CR dropped from every line but the last. */
  predicate Stripped(a: seq<string>, b: seq<string>) {
    |a| == |b| && forall k :: 0 <= k < |a| ==> a[k] == if k < |a| - 1 then StripCr(b[k]) else b[k]
  }

  /** Splitting on CRLF or LF is splitting on LF and dropping one CR from every finished line. */
  lemma {:induction false} CrlfStripsFinishedLines(s: string)
    ensures Stripped(Split(true, s), Split(false, s))
    decreases |s|
  {
    if s == "" {
    } else if s[0] == '\n' {
      CrlfStripsFinishedLines(s[1..]);
      SplitBreak(true, s, 1);
      SplitBreak(false, s, 1);
    } else if LineEnd(true, s) == 2 {
      CrlfStripsFinishedLines(s[2..]);
      SplitBreak(true, s, 2);
      SplitPlain(false, s);
      SplitBreak(false, s[1..], 1);
      assert s[1..][1..] == s[2..];
      CrLineStripped(Split(true, s[2..]), Split(false, s[2..]));
    } else {
      CrlfStripsFinishedLines(s[1..]);
      SplitPlain(true, s);
      SplitPlain(false, s);
      if Split(false, s[1..])[0] == "" && |Split(false, s[1..])| > 1 { EmptyFirstLine(s[1..]); }
      PlainLineStripped(s[0], Split(true, s[1..]), Split(false, s[1..]));
    }
  }

  lemma PlainLineStripped(c: char, a: seq<string>, b: seq<string>)
    requires Stripped(a, b) && a != [] && (b[0] == "" && |b| > 1 ==> c != '\r')
    ensures Stripped(Grown(c, a), Grown(c, b))
  {
    StripKeepsHead(c, b[0]);
  }

  lemma CrLineStripped(a: seq<string>, b: seq<string>)
    requires Stripped(a, b) && a != []
    ensures Stripped([""] + a, Grown('\r', [""] + b))
  {
    assert ([""] + b)[1..] == b;
    assert Init(['\r'] + "") == "";
  }

  lemma StripKeepsHead(c: char, line: string)
    ensures line != "" ==> StripCr([c] + line) == [c] + StripCr(line)
    ensures line == "" && c != '\r' ==> StripCr([c] + line) == [c]
  {
    if line != "" && Last(line) == '\r' { assert Init([c] + line) == [c] + Init(line); }
  }

  lemma EmptyFirstLine(s: string)
    requires Split(false, s)[0] == "" && |Split(false, s)| > 1
    ensures s != "" && s[0] == '\n'
  {
  }

  lemma {:induction false} SingleLine(crlf: bool, s: string)
    requires |Split(crlf, s)| == 1
    ensures Split(crlf, s) == [s]
    decreases |s|
  {
    if s != "" {
      SingleLine(crlf, s[1..]);
      assert s == [s[0]] + s[1..];
    }
  }

  lemma GrowFirstLine(c: char, rest: seq<string>, tail: seq<string>)
    requires |rest| > 1 && tail != []
    ensures Grown(c, Init(rest) + tail) == Init(Grown(c, rest)) + tail && Last(Grown(c, rest)) == Last(rest)
  {
    assert (Init(rest) + tail)[1..] == Init(rest)[1..] + tail;
    assert Init(Grown(c, rest)) == [[c] + rest[0]] + Init(rest)[1..];
  }

  /** Lines `ab` are lines `a` with its unfinished last line continued into lines `tail`. */
  predicate Resumed(ab: seq<string>, a: seq<string>, tail: seq<string>) { a != [] && ab == Init(a) + tail }

  /** Splitting may stop after any prefix and resume from its unfinished last line: this is where a
      CR and its LF may come in different chunks. */
  lemma {:induction false} SplitResumes(crlf: bool, a: string, b: string)
    ensures Resumed(Split(crlf, a + b), Split(crlf, a), Split(crlf, Last(Split(crlf, a)) + b))
    decreases |a|
  {
    if a == "" {
      assert a + b == b;
    } else if LineEnd(crlf, a) > 0 {
      var n := LineEnd(crlf, a);
      SplitResumes(crlf, a[n..], b);
      assert (a + b)[n..] == a[n..] + b;
      SplitBreak(crlf, a, n);
      SplitBreak(crlf, a + b, n);
      BreakResumes(Split(crlf, a[n..] + b), Split(crlf, a[n..]), Split(crlf, Last(Split(crlf, a[n..])) + b));
    } else if LineEnd(crlf, a + b) > 0 {
      assert a == "\r";
      SplitPlain(crlf, a);
      assert Split(crlf, a[1..]) == [""];
      assert [a[0]] + "" == a;
      assert Split(crlf, a) == [a];
    } else {
      SplitResumes(crlf, a[1..], b);
      assert (a + b)[1..] == a[1..] + b;
      SplitPlain(crlf, a);
      SplitPlain(crlf, a + b);
      PlainResumes(crlf, a, b, Split(crlf, a[1..]));
    }
  }

  lemma BreakResumes(ab: seq<string>, a: seq<string>, tail: seq<string>)
    requires Resumed(ab, a, tail)
    ensures Resumed([""] + ab, [""] + a, tail) && Last([""] + a) == Last(a)
  {
  }

  lemma {:induction false} PlainResumes(crlf: bool, a: string, b: string, rest: seq<string>)
    requires a != "" && LineEnd(crlf, a + b) == 0 && rest == Split(crlf, a[1..])
    requires Resumed(Split(crlf, a[1..] + b), rest, Split(crlf, Last(rest) + b))
    ensures Resumed(Grown(a[0], Split(crlf, a[1..] + b)), Grown(a[0], rest), Split(crlf, Last(Grown(a[0], rest)) + b))
  {
    if |rest| == 1 {
      SinglePlainResumes(crlf, a, b);
    } else {
      GrowFirstLine(a[0], rest, Split(crlf, Last(rest) + b));
    }
  }

  lemma SinglePlainResumes(crlf: bool, a: string, b: string)
    requires a != "" && LineEnd(crlf, a + b) == 0 && |Split(crlf, a[1..])| == 1
    ensures Grown(a[0], Split(crlf, a[1..])) == [a]
    ensures Grown(a[0], Split(crlf, a[1..] + b)) == Split(crlf, a + b)
  {
    SingleLine(crlf, a[1..]);
    assert [a[0]] + a[1..] == a;
    assert (a + b)[1..] == a[1..] + b;
    SplitPlain(crlf, a + b);
  }

  // ---------------------------------------------------------------- chunking

  lemma {:induction false} RecordsConcat<E>(parse: string -> Option<E>, a: seq<string>, b: seq<string>)
    ensures Records(parse, a + b) == Records(parse, a) + Records(parse, b)
    decreases |b|
  {
    if b == [] {
      assert a + b == a;
    } else {
      RecordsConcat(parse, a, Init(b));
      assert Init(a + b) == a + Init(b) && Last(a + b) == Last(b);
    }
  }

  /** The decoder of a whole text: its unfinished last line, and the records of the others. */
  function Whole<E>(crlf: bool, parse: string -> Option<E>, text: string): Decoder<E> {
    Decoder(Last(Split(crlf, text)), Records(parse, Init(Split(crlf, text))))
  }

  lemma FedExtends<E>(crlf: bool, parse: string -> Option<E>, text: string, chunk: string)
    ensures Fed(crlf, parse, Whole(crlf, parse, text), chunk) == Whole(crlf, parse, text + chunk)
  {
    var before := Split(crlf, text);
    var more := Split(crlf, Last(before) + chunk);
    SplitResumes(crlf, text, chunk);
    assert Init(Init(before) + more) == Init(before) + Init(more);
    RecordsConcat(parse, Init(before), Init(more));
  }

  /** After any chunks the decoder is that of the whole text. */
  lemma {:induction false} FedAllIsWhole<E>(crlf: bool, parse: string -> Option<E>, chunks: seq<string>)
    ensures FedAll(crlf, parse, Decoder("", []), chunks) == Whole(crlf, parse, Concat(chunks))
    decreases |chunks|
  {
    if chunks != [] {
      FedAllIsWhole(crlf, parse, Init(chunks));
      FedExtends(crlf, parse, Concat(Init(chunks)), Last(chunks));
    }
  }

  /** What the final flush leaves: one record per line of the whole text that parses. */
  lemma {:induction false} FlushedIsWhole<E>(crlf: bool, parse: string -> Option<E>, chunks: seq<string>)
    ensures Flushed(parse, FedAll(crlf, parse, Decoder("", []), chunks)).events
         == Records(parse, Split(crlf, Concat(chunks)))
    ensures Dispatches(parse, Split(crlf, Concat(chunks)),
                       Flushed(parse, FedAll(crlf, parse, Decoder("", []), chunks)).events)
  {
    FedAllIsWhole(crlf, parse, chunks);
    RecordsAreTheLines(parse, Split(crlf, Concat(chunks)));
  }

  /** After output that ended with a line end, one more line and its LF dispatch exactly what that line
      says, whatever the chunks. */
  lemma {:induction false} LineIsDispatched<E>(crlf: bool, parse: string -> Option<E>, chunks: seq<string>,
                                               more: seq<string>, line: string)
    requires Concat(more) == Concat(chunks) + line + "\n" && '\n' !in line && (crlf ==> '\r' !in line)
    requires Concat(chunks) == "" || Last(Concat(chunks)) == '\n'
    ensures Flushed(parse, FedAll(crlf, parse, Decoder("", []), more)).events
         == Flushed(parse, FedAll(crlf, parse, Decoder("", []), chunks)).events
            + (if Says(parse, line) then [parse(line).value] else [])
  {
    var text := Concat(chunks);
    FlushedIsWhole(crlf, parse, chunks);
    FlushedIsWhole(crlf, parse, more);
    LineSplits(crlf, text, line);
    LastLineRecord(parse, Split(crlf, text), line);
  }

  /** The last line is empty; `line` takes its place, with an empty line after it. */
  lemma LineSplits(crlf: bool, text: string, line: string)
    requires '\n' !in line && (crlf ==> '\r' !in line) && (text == "" || Last(text) == '\n')
    ensures Last(Split(crlf, text)) == ""
    ensures Split(crlf, text + line + "\n") == Init(Split(crlf, text)) + [line, ""]
  {
    EndedText(crlf, text);
    SplitResumes(crlf, text, line + "\n");
    OneLine(crlf, line);
    assert text + (line + "\n") == text + line + "\n" && "" + (line + "\n") == line + "\n";
  }

  lemma LastLineRecord<E>(parse: string -> Option<E>, lines: seq<string>, line: string)
    requires lines != [] && Last(lines) == ""
    ensures Records(parse, Init(lines) + [line, ""])
         == Records(parse, lines) + (if Says(parse, line) then [parse(line).value] else [])
  {
    var longer, withLine := Init(lines) + [line, ""], Init(lines) + [line];
    assert Init(longer) == withLine && Last(longer) == "" && Init(withLine) == Init(lines) && Last(withLine) == line;
    BlankSaysNothing(parse, line);
    BlankSaysNothing(parse, "");
  }

  /** What one line, or the lines of one chunk, add to a log of events. */
  lemma AddedEvents<E>(parse: string -> Option<E>, was: seq<E>, lines: seq<string>)
    ensures Dispatches(parse, lines, (was + Records(parse, lines))[|was|..])
  {
    RecordsAreTheLines(parse, lines);
    assert (was + Records(parse, lines))[|was|..] == Records(parse, lines);
  }

  lemma LoneRecord<E>(parse: string -> Option<E>, line: string)
    ensures Records(parse, [line]) == Record(parse, line)
    ensures Record(parse, line) == if Says(parse, line) then [parse(line).value] else []
  {
    BlankSaysNothing(parse, line);
    assert Init([line]) == [];
  }

  lemma {:induction false} EndedText(crlf: bool, s: string)
    requires s == "" || Last(s) == '\n'
    ensures Last(Split(crlf, s)) == ""
    decreases |s|
  {
    if s != "" {
      var n := if LineEnd(crlf, s) > 0 then LineEnd(crlf, s) else 1;
      EndedText(crlf, s[n..]);
    }
  }

  lemma {:induction false} OneLine(crlf: bool, line: string)
    requires '\n' !in line && (crlf ==> '\r' !in line)
    ensures Split(crlf, line + "\n") == [line, ""]
    decreases |line|
  {
    var s := line + "\n";
    if line == "" {
      assert s[1..] == "";
    } else {
      assert s[1..] == line[1..] + "\n" && s[0] == line[0];
      OneLine(crlf, line[1..]);
      assert [line[0]] + line[1..] == line;
    }
  }

  /** For any two splits of the same text into chunks the same records are dispatched, in the same
      order, after the final flush. */
  lemma ChunkingDoesNotMatter<E>(crlf: bool, parse: string -> Option<E>, a: seq<string>, b: seq<string>)
    requires Concat(a) == Concat(b)
    ensures Flushed(parse, FedAll(crlf, parse, Decoder("", []), a))
          == Flushed(parse, FedAll(crlf, parse, Decoder("", []), b))
  {
    FlushedIsWhole(crlf, parse, a);
    FlushedIsWhole(crlf, parse, b);
  }
}
