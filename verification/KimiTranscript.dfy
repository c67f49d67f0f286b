/** Models the transcript builder in `spawnKimiAgent` of server/kimi-agent-cli.js. Open blocks are
    objects whose text is extended in place; the transcript gets deep copies of them, the session
    manager shallow ones. */
module KimiTranscript {
  /** What a block or a user message holds; `Command` is the prompt of the run. */
  datatype Item =
    | Text(text: string)
    | ToolUse(id: string, name: string, input: string)
    | ToolResult(id: string, output: string, isError: bool)
    | Command(text: string)

  /** A pushed message, by value. */
  datatype Message = Assistant(content: seq<Item>) | User(item: Item)

  /** A callback of the response handler; `Init` discovers the session id. */
  datatype Event =
    | OnText(text: string)
    | OnToolUse(id: string, name: string, input: string)
    | OnToolResult(id: string, output: string, isError: bool)
    | OnInit(sessionId: string)

  /** `open` are the assistant blocks, `session` what this run told the session manager. */
  datatype State = State(open: seq<Item>, transcript: seq<Message>, session: seq<Message>, captured: bool)

  function CommandMessages(command: string): seq<Message> {
    if command == "" then [] else [User(Command(command))]
  }

  function Start(command: string, captured: bool): State {
    State([], CommandMessages(command), if captured then CommandMessages(command) else [], captured)
  }

  function OpenMessage(open: seq<Item>): seq<Message> { if open == [] then [] else [Assistant(open)] }

  function Pushed(messages: seq<Message>, open: seq<Item>, result: Item): seq<Message> {
    messages + OpenMessage(open) + [User(result)]
  }

  predicate EndsInText(items: seq<Item>) { items != [] && items[|items|-1].Text? }

  function WithText(items: seq<Item>, text: string): seq<Item> {
    if EndsInText(items) then items[|items|-1 := Text(items[|items|-1].text + text)] else items + [Text(text)]
  }

  function Apply(s: State, command: string, e: Event): State {
    match e
    case OnText(text) => s.(open := WithText(s.open, text))
    case OnToolUse(id, name, input) => s.(open := s.open + [ToolUse(id, name, input)])
    case OnToolResult(id, output, isError) =>
      var result := ToolResult(id, output, isError);
      State([], Pushed(s.transcript, s.open, result),
            if s.captured then Pushed(s.session, s.open, result) else s.session, s.captured)
    case OnInit(id) =>
      if s.captured || id == "" then s else s.(captured := true, session := CommandMessages(command))
  }

  // ---------------------------------------------------------------- the builder on the heap

  class Block {
    var value: Item
    constructor (value: Item)
      ensures this.value == value
    {
      this.value := value;
    }
  }

  /** A pushed message as the program holds it. */
  datatype MessageRef = AssistantRef(content: seq<Block>) | UserRef(item: Item)

  ghost predicate BlocksShow(blocks: seq<Block>, items: seq<Item>)
    reads blocks
  {
    |blocks| == |items| && forall i :: 0 <= i < |blocks| ==> blocks[i].value == items[i]
  }

  function ContentOf(r: MessageRef): seq<Block> { if r.AssistantRef? then r.content else [] }

  ghost predicate MessageShows(r: MessageRef, m: Message)
    reads ContentOf(r)
  {
    match r
    case AssistantRef(content) => m.Assistant? && BlocksShow(content, m.content)
    case UserRef(item) => m == User(item)
  }

  /** The messages show `view` and hold only blocks of `pushed`. */
  ghost predicate MessagesShow(refs: seq<MessageRef>, view: seq<Message>, pushed: set<Block>)
    reads pushed
  {
    && |refs| == |view|
    && (forall i, b :: 0 <= i < |refs| && b in ContentOf(refs[i]) ==> b in pushed)
    && (forall i :: 0 <= i < |refs| ==> MessageShows(refs[i], view[i]))
  }

  /** The blocks of the assistant message about to be pushed, if there is one. */
  ghost function Held(refs: seq<MessageRef>): set<Block> {
    if refs == [] then {} else set b | b in ContentOf(refs[0])
  }

  lemma PushedShow(refs: seq<MessageRef>, view: seq<Message>, more: seq<MessageRef>, content: seq<Message>,
                   result: Item, pushed: set<Block>, wider: set<Block>)
    requires MessagesShow(refs, view, pushed) && |more| == |content| <= 1
    requires more != [] ==> MessageShows(more[0], content[0])
    requires pushed <= wider && Held(more) <= wider
    ensures MessagesShow(refs + more + [UserRef(result)], view + content + [User(result)], wider)
  {
    var all := refs + more + [UserRef(result)];
    forall i, b | 0 <= i < |all| && b in ContentOf(all[i]) ensures b in wider {
      if i < |refs| { assert all[i] == refs[i]; }
    }
    forall i | 0 <= i < |all| ensures MessageShows(all[i], (view + content + [User(result)])[i]) {
      if i < |refs| { assert all[i] == refs[i] && MessageShows(refs[i], view[i]); }
    }
  }

  lemma Widened(refs: seq<MessageRef>, view: seq<Message>, pushed: set<Block>, more: set<Block>)
    requires MessagesShow(refs, view, pushed) && pushed <= more
    ensures MessagesShow(refs, view, more)
  {
  }

  class TranscriptBuilder {
    const command: string
    var captured: bool
    var assistantBlocks: seq<Block>
    var transcriptMessages: seq<MessageRef>
    var sessionMessages: seq<MessageRef>
    ghost var view: State
    ghost var pushed: set<Block>

    /** The open blocks are distinct objects that no pushed message holds. */
    ghost predicate Valid()
      reads this, assistantBlocks, pushed
    {
      && BlocksShow(assistantBlocks, view.open)
      && (forall i, j :: 0 <= i < j < |assistantBlocks| ==> assistantBlocks[i] != assistantBlocks[j])
      && (forall b :: b in assistantBlocks ==> b !in pushed)
      && MessagesShow(transcriptMessages, view.transcript, pushed)
      && MessagesShow(sessionMessages, view.session, pushed)
      && captured == view.captured
    }

    constructor (command: string, captured: bool)
      ensures Valid() && view == Start(command, captured) && this.command == command
    {
      this.command, this.captured := command, captured;
      assistantBlocks := [];
      transcriptMessages := if command == "" then [] else [UserRef(Command(command))];
      sessionMessages := if captured && command != "" then [UserRef(Command(command))] else [];
      view, pushed := Start(command, captured), {};
    }

    method OnContentFragment(content: string, revoked: bool)
      requires Valid()
      modifies this, assistantBlocks
      ensures Valid() && view == if revoked then old(view) else Apply(old(view), command, OnText(content))
      ensures pushed == old(pushed)
      ensures transcriptMessages == old(transcriptMessages) && sessionMessages == old(sessionMessages)
    {
      if revoked { return; }
      var n := |assistantBlocks|;
      if n > 0 && assistantBlocks[n-1].value.Text? {
        assistantBlocks[n-1].value := Text(assistantBlocks[n-1].value.text + content);
      } else {
        var b := new Block(Text(content));
        assistantBlocks := assistantBlocks + [b];
      }
      view := Apply(view, command, OnText(content));
    }

    method OnToolUse(id: string, name: string, input: string, revoked: bool)
      requires Valid()
      modifies this
      ensures Valid()
      ensures view == if revoked then old(view) else Apply(old(view), command, Event.OnToolUse(id, name, input))
    {
      if revoked { return; }
      var b := new Block(ToolUse(id, name, input));
      assistantBlocks := assistantBlocks + [b];
      view := Apply(view, command, Event.OnToolUse(id, name, input));
    }

    /** `structuredClone`: new objects that show the same items. */
    method Clone(blocks: seq<Block>, ghost items: seq<Item>) returns (copy: seq<Block>)
      requires BlocksShow(blocks, items)
      ensures BlocksShow(copy, items) && fresh(copy)
    {
      copy := [];
      for i := 0 to |blocks|
        invariant BlocksShow(copy, items[..i]) && fresh(copy)
      {
        var b := new Block(blocks[i].value);
        copy := copy + [b];
      }
      assert items[..|blocks|] == items;
    }

    /** A deep copy of the open blocks as a message, if there are any. */
    method CopyOpen() returns (copied: seq<MessageRef>)
      requires Valid()
      ensures |copied| == |OpenMessage(view.open)| && fresh(Held(copied))
      ensures copied != [] ==> MessageShows(copied[0], OpenMessage(view.open)[0])
    {
      if |assistantBlocks| == 0 { return []; }
      var copy := Clone(assistantBlocks, view.open);
      return [AssistantRef(copy)];
    }

    method PushToTranscript(result: Item)
      requires Valid()
      modifies this
      ensures Valid() && captured == old(captured)
      ensures view == old(view).(transcript := Pushed(old(view).transcript, old(view).open, result))
    {
      var copied := CopyOpen();
      ghost var wider := pushed + Held(copied);
      PushedShow(transcriptMessages, view.transcript, copied, OpenMessage(view.open), result, pushed, wider);
      Widened(sessionMessages, view.session, pushed, wider);
      transcriptMessages := transcriptMessages + copied + [UserRef(result)];
      view := view.(transcript := Pushed(view.transcript, view.open, result));
      pushed := wider;
    }

    /** The session manager gets the open blocks themselves, which are open no longer. */
    method HandOver(result: Item)
      requires Valid() && captured
      modifies this
      ensures Valid() && captured
      ensures view == old(view).(open := [], session := Pushed(old(view).session, old(view).open, result))
    {
      var shared := if |assistantBlocks| > 0 then [AssistantRef(assistantBlocks)] else [];
      ghost var wider := pushed + Held(shared);
      PushedShow(sessionMessages, view.session, shared, OpenMessage(view.open), result, pushed, wider);
      Widened(transcriptMessages, view.transcript, pushed, wider);
      sessionMessages := sessionMessages + shared + [UserRef(result)];
      assistantBlocks := [];
      view := view.(open := [], session := Pushed(view.session, view.open, result));
      pushed := wider;
    }

    method OnToolResult(id: string, output: string, isError: bool, revoked: bool)
      requires Valid()
      modifies this
      ensures Valid()
      ensures view ==
                if revoked then old(view) else Apply(old(view), command, Event.OnToolResult(id, output, isError))
    {
      if revoked { return; }
      PushToTranscript(ToolResult(id, output, isError));
      if captured { HandOver(ToolResult(id, output, isError)); }
      assistantBlocks := [];
      view := view.(open := []);
    }

    method OnInit(discovered: string, revoked: bool)
      requires Valid()
      modifies this
      ensures Valid() && view == if revoked then old(view) else Apply(old(view), command, Event.OnInit(discovered))
    {
      if revoked || captured || discovered == "" { return; }
      captured := true;
      sessionMessages := if command == "" then [] else [UserRef(Command(command))];
      view := Apply(view, command, Event.OnInit(discovered));
    }
  }

  // ---------------------------------------------------------------- whole runs

  datatype Call = Call(event: Event, revoked: bool)

  function Run(command: string, captured: bool, calls: seq<Call>): State {
    if calls == [] then Start(command, captured)
    else
      var s := Run(command, captured, calls[..|calls|-1]);
      var call := calls[|calls|-1];
      if call.revoked then s else Apply(s, command, call.event)
  }

  function ItemOf(e: Event): seq<Item> {
    match e
    case OnText(text) => [Text(text)]
    case OnToolUse(id, name, input) => [ToolUse(id, name, input)]
    case OnToolResult(id, output, isError) => [ToolResult(id, output, isError)]
    case OnInit(_) => []
  }

  /** What the CLI produced while output was not revoked, one item per callback. */
  function Produced(calls: seq<Call>): seq<Item> {
    if calls == [] then []
    else Produced(calls[..|calls|-1]) + (if calls[|calls|-1].revoked then [] else ItemOf(calls[|calls|-1].event))
  }

  /** Adjacent texts are joined, from the left; everything else stays. */
  function Merged(items: seq<Item>): (r: seq<Item>)
    ensures r == [] <==> items == []
    decreases |items|
  {
    if |items| <= 1 then items
    else if items[0].Text? && items[1].Text? then Merged([Text(items[0].text + items[1].text)] + items[2..])
    else [items[0]] + Merged(items[1..])
  }

  function Flatten(messages: seq<Message>): seq<Item> {
    if messages == [] then []
    else
      var m := messages[|messages|-1];
      Flatten(messages[..|messages|-1]) + (if m.Assistant? then m.content else [m.item])
  }

  predicate NoAdjacentText(items: seq<Item>) {
    forall i :: 0 <= i < |items| - 1 ==> !(items[i].Text? && items[i+1].Text?)
  }

  predicate WellFormed(messages: seq<Message>) {
    && (forall i :: 0 <= i < |messages| ==>
          match messages[i]
          case Assistant(content) => content != [] && NoAdjacentText(content)
          case User(item) => !item.Text?)
    && (messages != [] ==> messages[|messages|-1].User?)
  }

  lemma ExtendedBehind(a: Item, items: seq<Item>, x: Item)
    requires items != []
    ensures Extended([a] + items, x) == [a] + Extended(items, x)
  {
  }

  lemma MergedPair(a: Item, x: Item)
    ensures Merged([a] + [x]) == Extended([a], x)
  {
    assert ([a] + [x])[1..] == [x] && ([a] + [x])[2..] == [];
    assert Merged([x]) == [x];
  }

  lemma {:induction false} MergedSnoc(items: seq<Item>, x: Item)
    ensures Merged(items + [x]) == Extended(Merged(items), x)
    decreases |items|
  {
    if |items| >= 2 && items[0].Text? && items[1].Text? {
      var joined := [Text(items[0].text + items[1].text)];
      MergedSnoc(joined + items[2..], x);
      assert (items + [x])[2..] == items[2..] + [x];
      assert joined + (items[2..] + [x]) == (joined + items[2..]) + [x];
    } else if |items| >= 2 {
      MergedSnoc(items[1..], x);
      assert (items + [x])[1..] == items[1..] + [x];
      ExtendedBehind(items[0], Merged(items[1..]), x);
    } else if |items| == 1 {
      MergedPair(items[0], x);
    }
  }

  lemma WithTextAfter(a: seq<Item>, open: seq<Item>, text: string)
    requires open == [] ==> !EndsInText(a)
    ensures WithText(a + open, text) == a + WithText(open, text)
  {
  }

  lemma FlattenPushed(messages: seq<Message>, open: seq<Item>, result: Item)
    ensures Flatten(Pushed(messages, open, result)) == Flatten(messages) + open + [result]
  {
    var ms := messages + OpenMessage(open);
    assert (ms + [User(result)])[..|ms|] == ms;
    if open == [] { assert ms == messages && Flatten(messages) + [] == Flatten(messages); }
    else { assert ms[..|messages|] == messages; }
  }

  lemma TextKeepsBlocksApart(open: seq<Item>, text: string)
    requires NoAdjacentText(open)
    ensures NoAdjacentText(WithText(open, text))
  {
  }

  lemma PushKeepsWellFormed(messages: seq<Message>, open: seq<Item>, result: Item)
    requires WellFormed(messages) && NoAdjacentText(open) && !result.Text?
    ensures WellFormed(Pushed(messages, open, result))
  {
  }

  lemma WellFormedStep(s: State, command: string, e: Event)
    requires WellFormed(s.transcript) && NoAdjacentText(s.open)
    ensures WellFormed(Apply(s, command, e).transcript) && NoAdjacentText(Apply(s, command, e).open)
  {
    match e
    case OnText(text) => TextKeepsBlocksApart(s.open, text);
    case OnToolResult(_, _, _) => PushKeepsWellFormed(s.transcript, s.open, ItemOf(e)[0]);
    case _ =>
  }

  lemma {:induction false} TranscriptWellFormed(command: string, captured: bool, calls: seq<Call>)
    ensures var s := Run(command, captured, calls); WellFormed(s.transcript) && NoAdjacentText(s.open)
    decreases |calls|
  {
    if calls != [] {
      TranscriptWellFormed(command, captured, calls[..|calls|-1]);
      WellFormedStep(Run(command, captured, calls[..|calls|-1]), command, calls[|calls|-1].event);
    }
  }

  /** No assistant message is empty, none has two adjacent text blocks, and every one is followed by
      the tool result that closed it. */
  lemma AssistantMessagesAreProper(command: string, captured: bool, calls: seq<Call>, i: nat)
    requires i < |Run(command, captured, calls).transcript| && Run(command, captured, calls).transcript[i].Assistant?
    ensures var t := Run(command, captured, calls).transcript;
            t[i].content != [] && NoAdjacentText(t[i].content) && i + 1 < |t|
  {
    TranscriptWellFormed(command, captured, calls);
  }

  /** Everything that has reached the builder, pushed or open. */
  function Flat(s: State): seq<Item> { Flatten(s.transcript) + s.open }

  /** Nothing is lost, reordered or repeated: the transcript followed by the open blocks is exactly
      what was produced, with adjacent text merged. */
  lemma {:induction false} TranscriptConserves(command: string, captured: bool, calls: seq<Call>)
    ensures Flat(Run(command, captured, calls)) == Merged(Flatten(CommandMessages(command)) + Produced(calls))
    decreases |calls|
  {
    var base := Flatten(CommandMessages(command));
    if calls == [] {
      assert base + [] == base;
      CommandFlat(command);
    } else {
      var before, call := calls[..|calls|-1], calls[|calls|-1];
      TranscriptConserves(command, captured, before);
      if call.revoked || call.event.OnInit? {
        InitKeepsItems(Run(command, captured, before), command, call.event);
        assert Produced(calls) == Produced(before);
      } else {
        ConservesStep(command, captured, before, call.event);
        assert base + Produced(calls) == (base + Produced(before)) + ItemOf(call.event);
        MergedSnoc(base + Produced(before), ItemOf(call.event)[0]);
        assert Flat(Run(command, captured, calls))
            == Extended(Flat(Run(command, captured, before)), ItemOf(call.event)[0]);
      }
    }
  }

  function Extended(items: seq<Item>, x: Item): seq<Item> { if x.Text? then WithText(items, x.text) else items + [x] }

  lemma InitKeepsItems(s: State, command: string, e: Event)
    ensures e.OnInit? ==> Flat(Apply(s, command, e)) == Flat(s)
  {
  }

  lemma CommandFlat(command: string)
    ensures Merged(Flatten(CommandMessages(command))) == Flatten(CommandMessages(command))
  {
    if command != "" { assert CommandMessages(command)[..0] == []; }
  }

  lemma {:induction false} ConservesStep(command: string, captured: bool, calls: seq<Call>, e: Event)
    requires !e.OnInit?
    ensures var s := Run(command, captured, calls); Flat(Apply(s, command, e)) == Extended(Flat(s), ItemOf(e)[0])
  {
    var s := Run(command, captured, calls);
    match e {
      case OnText(text) =>
        TranscriptWellFormed(command, captured, calls);
        WithTextAfter(Flatten(s.transcript), s.open, text);
      case OnToolUse(_, _, _) =>
      case OnToolResult(id, output, isError) => FlattenPushed(s.transcript, s.open, ToolResult(id, output, isError));
    }
  }

  /** A pushed message is never changed or taken back by what comes later. */
  lemma {:induction false} PushedMessagesStand(command: string, captured: bool, calls: seq<Call>, more: seq<Call>)
    ensures Run(command, captured, calls).transcript <= Run(command, captured, calls + more).transcript
    ensures Run(command, captured, calls).captured ==>
              Run(command, captured, calls).session <= Run(command, captured, calls + more).session
    ensures Run(command, captured, calls).captured ==> Run(command, captured, calls + more).captured
    decreases |more|
  {
    if more == [] {
      assert calls + more == calls;
    } else {
      PushedMessagesStand(command, captured, calls, more[..|more|-1]);
      assert (calls + more)[..|calls + more|-1] == calls + more[..|more|-1];
    }
  }

  /** Session `s` is the command, then the transcript from some message on. */
  predicate IsTail(session: seq<Message>, transcript: seq<Message>, command: seq<Message>) {
    && |command| <= |session| <= |transcript|
    && session == command + transcript[|command| + |transcript| - |session|..]
  }

  lemma TailGrows(session: seq<Message>, transcript: seq<Message>, command: seq<Message>, more: seq<Message>)
    requires IsTail(session, transcript, command)
    ensures IsTail(session + more, transcript + more, command)
  {
    var k := |command| + |transcript| - |session|;
    assert (transcript + more)[k..] == transcript[k..] + more;
  }

  /** The session manager holds the command and, after it, the same messages as the transcript from
      the moment the session is known; a resumed session holds the whole transcript. */
  lemma {:induction false} SessionIsTranscriptTail(command: string, captured: bool, calls: seq<Call>)
    ensures var s := Run(command, captured, calls);
            && |CommandMessages(command)| <= |s.transcript|
            && (s.captured ==> IsTail(s.session, s.transcript, CommandMessages(command)))
            && (captured ==> s.captured && s.session == s.transcript)
    decreases |calls|
  {
    if calls != [] {
      SessionIsTranscriptTail(command, captured, calls[..|calls|-1]);
      var s, call := Run(command, captured, calls[..|calls|-1]), calls[|calls|-1];
      if s.captured && !call.revoked && call.event.OnToolResult? {
        var more := OpenMessage(s.open) + [User(ItemOf(call.event)[0])];
        TailGrows(s.session, s.transcript, CommandMessages(command), more);
        assert s.session + more == Pushed(s.session, s.open, ItemOf(call.event)[0]);
        assert s.transcript + more == Pushed(s.transcript, s.open, ItemOf(call.event)[0]);
      }
    }
  }
}
