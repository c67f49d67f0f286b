/** What `Canonical.Print` prints is JSON text: a reader of the grammar of RFC 8259 without
    insignificant white space (sections 2 to 7) reads it back, with every object's keys ascending. */
module JsonText {
  import opened Canonical

  datatype Read<T> = Got(value: T, rest: Text) | Bad

  // ---------------------------------------------------------------- the reader

  function HexValue(u: Unit): (n: int)
    ensures n < 16
  {
    if 0x30 <= u <= 0x39 then u as int - 0x30
    else if 0x61 <= u <= 0x66 then u as int - 0x57
    else if 0x41 <= u <= 0x46 then u as int - 0x37
    else -1
  }

  /** The unit four hexadecimal digits stand for. */
  function ReadHex4(t: Text): Read<Unit> {
    if |t| < 4 || HexValue(t[0]) < 0 || HexValue(t[1]) < 0 || HexValue(t[2]) < 0 || HexValue(t[3]) < 0 then Bad
    else Got((((HexValue(t[0]) * 16 + HexValue(t[1])) * 16 + HexValue(t[2])) * 16 + HexValue(t[3])) as Unit, t[4..])
  }

  /** The unit of a two-character escape; a solidus may be escaped too. */
  function Unescaped(u: Unit): Read<Unit> {
    if u == QUOTE || u == BACKSLASH || u == 0x2F then Got(u, [])
    else if u == 0x62 then Got(8, [])
    else if u == 0x66 then Got(12, [])
    else if u == 0x6E then Got(10, [])
    else if u == 0x72 then Got(13, [])
    else if u == 0x74 then Got(9, [])
    else Bad
  }

  function Prefixed(u: Unit, r: Read<Text>): Read<Text> {
    if r.Got? then Got([u] + r.value, r.rest) else Bad
  }

  /** The rest of a string, after its opening quote. */
  function ReadString(s: Text): (r: Read<Text>)
    ensures r.Got? ==> |r.rest| < |s|
    decreases |s|
  {
    if s == [] then Bad
    else if s[0] == QUOTE then Got([], s[1..])
    else if s[0] < 0x20 then Bad
    else if s[0] != BACKSLASH then Prefixed(s[0], ReadString(s[1..]))
    else if |s| < 2 then Bad
    else if s[1] == LETTER_U then
      if |s| >= 6 && ReadHex4(s[2..6]).Got? then Prefixed(ReadHex4(s[2..6]).value, ReadString(s[6..])) else Bad
    else if Unescaped(s[1]).Got? then Prefixed(Unescaped(s[1]).value, ReadString(s[2..]))
    else Bad
  }

  function NumberLength(s: Text): (n: nat)
    ensures n <= |s|
  {
    if s == [] || !NumberUnit(s[0]) then 0 else 1 + NumberLength(s[1..])
  }

  function ReadValue(s: Text): (r: Read<Json>)
    ensures r.Got? ==> |r.rest| < |s|
    decreases |s|, 0
  {
    if s == [] then Bad
    else if s[0] == QUOTE then
      var text := ReadString(s[1..]);
      if text.Got? then Got(String(text.value), text.rest) else Bad
    else if s[0] == OPEN_BRACKET then
      if |s| >= 2 && s[1] == CLOSE_BRACKET then Got(Array([]), s[2..])
      else
        var items := ReadItems(s[1..]);
        if items.Got? then Got(Array(items.value), items.rest) else Bad
    else if s[0] == OPEN_BRACE then
      if |s| >= 2 && s[1] == CLOSE_BRACE then Got(Object([]), s[2..])
      else
        var members := ReadMembers(s[1..]);
        if members.Got? then Got(Object(members.value), members.rest) else Bad
    else if NULL <= s then Got(Null, s[4..])
    else if TRUE <= s then Got(Bool(true), s[4..])
    else if FALSE <= s then Got(Bool(false), s[5..])
    else if IsDigit(s[0]) || s[0] == MINUS then Got(Number(s[..NumberLength(s)]), s[NumberLength(s)..])
    else Bad
  }

  /** The items of an array up to its closing bracket; there is at least one. */
  function ReadItems(s: Text): (r: Read<seq<Json>>)
    ensures r.Got? ==> |r.rest| < |s|
    decreases |s|, 1
  {
    var first := ReadValue(s);
    if first.Bad? || first.rest == [] then Bad
    else if first.rest[0] == CLOSE_BRACKET then Got([first.value], first.rest[1..])
    else if first.rest[0] != COMMA then Bad
    else
      var more := ReadItems(first.rest[1..]);
      if more.Got? then Got([first.value] + more.value, more.rest) else Bad
  }

  function ReadMember(s: Text): (r: Read<Member>)
    ensures r.Got? ==> |r.rest| < |s|
    decreases |s|, 1
  {
    if s == [] || s[0] != QUOTE then Bad
    else
      var key := ReadString(s[1..]);
      if key.Bad? || key.rest == [] || key.rest[0] != COLON then Bad
      else
        var value := ReadValue(key.rest[1..]);
        if value.Got? then Got(Member(key.value, value.value), value.rest) else Bad
  }

  function ReadMembers(s: Text): (r: Read<seq<Member>>)
    ensures r.Got? ==> |r.rest| < |s|
    decreases |s|, 2
  {
    var first := ReadMember(s);
    if first.Bad? || first.rest == [] then Bad
    else if first.rest[0] == CLOSE_BRACE then Got([first.value], first.rest[1..])
    else if first.rest[0] != COMMA then Bad
    else
      var more := ReadMembers(first.rest[1..]);
      if more.Got? then Got([first.value] + more.value, more.rest) else Bad
  }

  // ---------------------------------------------------------------- strings read back

  lemma HexDigitBack(n: int)
    requires 0 <= n < 16
    ensures HexValue(HexDigit(n)) == n
  {
  }

  lemma Hex4Back(u: Unit)
    ensures ReadHex4(Hex4(u)) == Got(u, [])
  {
    var n := u as int;
    HexDigitBack(n / 16 / 16 / 16);
    HexDigitBack(n / 16 / 16 % 16);
    HexDigitBack(n / 16 % 16);
    HexDigitBack(n % 16);
    assert Hex4(u)[4..] == [];
  }

  /** A unit that stands for itself. */
  lemma SelfBack(u: Unit, s: Text)
    requires u >= 0x20 && u != QUOTE && u != BACKSLASH
    ensures ReadString([u] + s) == Prefixed(u, ReadString(s))
  {
    assert ([u] + s)[1..] == s;
  }

  lemma EscapedBack(u: Unit, s: Text)
    requires !Plain(u) && (HasShortEscape(u) || u < 0x20 || HighSurrogate(u) || LowSurrogate(u))
    ensures ReadString(Escaped(u) + s) == Prefixed(u, ReadString(s))
  {
    var x := Escaped(u) + s;
    if HasShortEscape(u) {
      assert x[1] == ShortEscape(u) && x[2..] == s;
    } else {
      Hex4Back(u);
      assert x[1] == LETTER_U && x[2..6] == Hex4(u) && x[6..] == s;
    }
  }

  function AllPrefixed(t: Text, r: Read<Text>): Read<Text> { if r.Got? then Got(t + r.value, r.rest) else Bad }

  lemma {:induction false} PairBack(high: Unit, low: Unit, s: Text)
    requires HighSurrogate(high) && LowSurrogate(low)
    ensures ReadString([high, low] + s) == AllPrefixed([high, low], ReadString(s))
  {
    var r := ReadString(s);
    assert [high, low] + s == [high] + ([low] + s);
    SelfBack(low, s);
    SelfBack(high, [low] + s);
    if r.Got? { assert [high] + ([low] + r.value) == [high, low] + r.value; }
  }

  /** The first token of a printed string reads back. */
  lemma TokenBack(t: Text, s: Text)
    requires t != []
    ensures ReadString(Token(t) + s) == AllPrefixed(t[..Take(t)], ReadString(s))
  {
    if Take(t) == 2 {
      assert t[..2] == [t[0], t[1]];
      PairBack(t[0], t[1], s);
    } else {
      assert t[..1] == [t[0]];
      if Plain(t[0]) { SelfBack(t[0], s); } else { EscapedBack(t[0], s); }
    }
  }

  lemma {:induction false} StringBack(t: Text, s: Text)
    ensures ReadString(Closed(t, s)) == Got(t, s)
    decreases |t|
  {
    if t == [] {
      ClosedEmpty(s);
    } else {
      ClosedStep(t, s);
      StringBack(t[Take(t)..], s);
      TokenBack(t, Closed(t[Take(t)..], s));
      assert t[..Take(t)] + t[Take(t)..] == t;
    }
  }

  // ---------------------------------------------------------------- values read back

  /** The keys of every object in `v` ascend. */
  predicate InKeyOrder(v: Json) {
    match v
    case Array(items) => forall i :: 0 <= i < |items| ==> InKeyOrder(items[i])
    case Object(members) => Sorted(members) && forall i :: 0 <= i < |members| ==> InKeyOrder(members[i].value)
    case _ => true
  }

  /** `r` is `v` up to key order, in key order. */
  ghost predicate ReadAs(v: Json, r: Json) { Same(v, r) && InKeyOrder(r) }

  lemma {:induction false} NumberBack(t: Text, rest: Text)
    requires Follows(rest) && forall i :: 0 <= i < |t| ==> NumberUnit(t[i])
    ensures NumberLength(t + rest) == |t|
    decreases |t|
  {
    if t == [] {
      assert t + rest == rest;
    } else {
      assert (t + rest)[1..] == t[1..] + rest;
      NumberBack(t[1..], rest);
    }
  }

  lemma LiteralsBack(rest: Text)
    ensures ReadValue(NULL + rest) == Got(Null, rest)
    ensures ReadValue(TRUE + rest) == Got(Bool(true), rest)
    ensures ReadValue(FALSE + rest) == Got(Bool(false), rest)
  {
    assert (NULL + rest)[0] == 0x6E && (TRUE + rest)[0] == 0x74 && (FALSE + rest)[0] == 0x66;
    assert (NULL + rest)[4..] == rest && (TRUE + rest)[4..] == rest && (FALSE + rest)[5..] == rest;
  }

  lemma StringValueBack(t: Text, rest: Text)
    ensures ReadValue(Quoted(t) + rest) == Got(String(t), rest)
  {
    var s := Quoted(t) + rest;
    assert s[0] == QUOTE && s[1..] == Closed(t, rest);
    StringBack(t, rest);
  }

  lemma NumberValueBack(t: Text, rest: Text)
    requires NumberLexeme(t) && Follows(rest)
    ensures ReadValue(t + rest) == Got(Number(t), rest)
  {
    NumberBack(t, rest);
    var s := t + rest;
    assert s[0] == t[0] && s[..|t|] == t && s[|t|..] == rest;
  }

  /** The printed value reads back as the value up to key order, and nothing else is read. */
  lemma {:induction false} ValueBack(v: Json, rest: Text)
    requires WellFormed(v) && Follows(rest)
    ensures var r := ReadValue(Print(v) + rest); r.Got? && r.rest == rest && ReadAs(v, r.value)
    decreases Size(v), 0
  {
    match v
    case Null => LiteralsBack(rest);
    case Bool(_) => LiteralsBack(rest);
    case Number(lexeme) => NumberValueBack(lexeme, rest);
    case String(text) => StringValueBack(text, rest);
    case Array(items) =>
      if items != [] { ItemsBack(items, rest); }
      ArrayBack(items, rest);
    case Object(members) =>
      var sorted := SortByKey(members);
      if sorted != [] {
        SortKeepsWellFormed(members);
        MembersBack(sorted, rest);
      }
      ObjectBack(members, rest);
  }

  /** `vs` printed and joined, then the closing bracket, reads back. */
  ghost predicate ItemsRead(vs: seq<Json>, rest: Text) {
    var r := ReadItems(Join(PrintAll(vs)) + ([CLOSE_BRACKET] + rest));
    && r.Got? && r.rest == rest && |r.value| == |vs|
    && forall i :: 0 <= i < |vs| ==> ReadAs(vs[i], r.value[i])
  }

  lemma ArrayBack(items: seq<Json>, rest: Text)
    requires WellFormed(Array(items)) && (items != [] ==> ItemsRead(items, rest))
    ensures var r := ReadValue(Print(Array(items)) + rest); r.Got? && r.rest == rest && ReadAs(Array(items), r.value)
  {
    var body := Join(PrintAll(items));
    var s := Print(Array(items)) + rest;
    assert s[0] == OPEN_BRACKET && s[1..] == body + ([CLOSE_BRACKET] + rest);
    if items == [] {
      assert s[2..] == s[1..][1..] == rest;
    } else {
      PrintStarts(items[0]);
      assert PrintAll(items)[0] == Print(items[0]) && s[1] == body[0] == Print(items[0])[0];
    }
  }

  /** Joined texts up to their end: the first one, and what follows it. */
  lemma JoinedFirst(ps: seq<Text>, end: Text)
    requires ps != []
    ensures Join(ps) + end == ps[0] + (JoinRest(ps[1..]) + end)
    ensures |ps| > 1 ==> JoinRest(ps[1..]) + end == [COMMA] + (Join(ps[1..]) + end)
    ensures |ps| == 1 ==> JoinRest(ps[1..]) + end == end
  {
  }

  lemma {:induction false} ItemsBack(vs: seq<Json>, rest: Text)
    requires vs != [] && forall i :: 0 <= i < |vs| ==> WellFormed(vs[i])
    ensures ItemsRead(vs, rest)
    decreases SizeItems(vs), 1
  {
    var end := [CLOSE_BRACKET] + rest;
    var ps := PrintAll(vs);
    var tail := JoinRest(ps[1..]) + end;
    assert ps[1..] == PrintAll(vs[1..]) && ps[0] == Print(vs[0]);
    JoinedFirst(ps, end);
    ValueBack(vs[0], tail);
    if |vs| == 1 {
      assert tail[1..] == rest;
    } else {
      ItemsBack(vs[1..], rest);
      assert tail[1..] == Join(PrintAll(vs[1..])) + end;
    }
  }

  lemma QuotedRest(key: Text, value: Text, rest: Text)
    ensures var s := Quoted(key) + value + rest;
            s[0] == QUOTE && s[1..] == Closed(key, value + rest)
  {
  }

  lemma KeyBack(m: Member, rest: Text)
    ensures var s := PrintMember(m) + rest;
            s != [] && s[0] == QUOTE && ReadString(s[1..]) == Got(m.key, [COLON] + (Print(m.value) + rest))
  {
    var value := [COLON] + Print(m.value);
    var after := [COLON] + (Print(m.value) + rest);
    assert value + rest == after;
    QuotedRest(m.key, value, rest);
    StringBack(m.key, after);
  }

  lemma {:induction false} MemberBack(m: Member, rest: Text)
    requires WellFormed(m.value) && Follows(rest)
    ensures var r := ReadMember(PrintMember(m) + rest);
            r.Got? && r.rest == rest && r.value.key == m.key && ReadAs(m.value, r.value.value)
    decreases SizeMember(m), 0
  {
    KeyBack(m, rest);
    assert ([COLON] + (Print(m.value) + rest))[1..] == Print(m.value) + rest;
    ValueBack(m.value, rest);
  }

  ghost predicate MemberReadAs(m: Member, r: Member) { r.key == m.key && ReadAs(m.value, r.value) }

  /** The same for members and the closing brace. */
  ghost predicate MembersRead(ms: seq<Member>, rest: Text) {
    var r := ReadMembers(Join(PrintMembers(ms)) + ([CLOSE_BRACE] + rest));
    r.Got? && r.rest == rest && AllReadAs(ms, r.value)
  }

  lemma {:induction false} MembersBack(ms: seq<Member>, rest: Text)
    requires ms != [] && AllWellFormed(ms)
    ensures MembersRead(ms, rest)
    decreases SizeMembers(ms), 1
  {
    var end := [CLOSE_BRACE] + rest;
    var ps := PrintMembers(ms);
    var tail := JoinRest(ps[1..]) + end;
    assert ps[1..] == PrintMembers(ms[1..]) && ps[0] == PrintMember(ms[0]);
    JoinedFirst(ps, end);
    MemberBack(ms[0], tail);
    if |ms| == 1 {
      assert tail[1..] == rest;
    } else {
      MembersBack(ms[1..], rest);
      assert tail[1..] == Join(PrintMembers(ms[1..])) + end;
    }
  }

  ghost predicate AllReadAs(ms: seq<Member>, ns: seq<Member>) {
    |ns| == |ms| && forall i :: 0 <= i < |ms| ==> MemberReadAs(ms[i], ns[i])
  }

  lemma ReadMembersAscend(ms: seq<Member>, ns: seq<Member>)
    requires AllReadAs(ms, ns) && Sorted(ms)
    ensures InKeyOrder(Object(ns))
  {
    forall i | 0 <= i < |ns| ensures ns[i].key == ms[i].key && InKeyOrder(ns[i].value) {
      assert MemberReadAs(ms[i], ns[i]);
    }
  }

  /** Members read in key order are the object's, up to key order. */
  lemma MembersAreTheObject(ms: seq<Member>, ns: seq<Member>)
    requires AllReadAs(SortByKey(ms), ns)
    ensures ReadAs(Object(ms), Object(ns))
  {
    var sorted := SortByKey(ms);
    SortKeepsMembers(ms);
    SortSorts(ms);
    ReadMembersAscend(sorted, ns);
    forall i | 0 <= i < |ms| ensures Listed(ms[i], ns) {
      assert ms[i] in sorted;
      var k :| 0 <= k < |sorted| && sorted[k] == ms[i];
      assert MemberReadAs(sorted[k], ns[k]);
    }
  }

  /** An object text with something between its braces. */
  lemma BracesRead(body: Text, rest: Text)
    requires body != [] && body[0] == QUOTE
    ensures ReadValue(Wrapped(OPEN_BRACE, body, CLOSE_BRACE) + rest) ==
            var members := ReadMembers(body + ([CLOSE_BRACE] + rest));
            if members.Got? then Got(Object(members.value), members.rest) else Bad
  {
    var s := Wrapped(OPEN_BRACE, body, CLOSE_BRACE) + rest;
    assert s[0] == OPEN_BRACE && s[1..] == body + ([CLOSE_BRACE] + rest) && s[1] == QUOTE;
  }

  lemma EmptyBracesRead(rest: Text)
    ensures ReadValue(Wrapped(OPEN_BRACE, [], CLOSE_BRACE) + rest) == Got(Object([]), rest)
  {
    var s := Wrapped(OPEN_BRACE, [], CLOSE_BRACE) + rest;
    assert s[0] == OPEN_BRACE && s[1] == CLOSE_BRACE && s[2..] == rest;
  }

  lemma {:induction false} ObjectBack(members: seq<Member>, rest: Text)
    requires var sorted := SortByKey(members); sorted != [] ==> MembersRead(sorted, rest)
    ensures var r := ReadValue(Print(Object(members)) + rest);
            r.Got? && r.rest == rest && ReadAs(Object(members), r.value)
  {
    var sorted := SortByKey(members);
    SortKeepsMembers(members);
    if sorted == [] {
      EmptyBracesRead(rest);
    } else {
      var body := Join(PrintMembers(sorted));
      assert PrintMembers(sorted)[0] == PrintMember(sorted[0]) && body[0] == QUOTE;
      BracesRead(body, rest);
      MembersAreTheObject(members, ReadMembers(body + ([CLOSE_BRACE] + rest)).value);
    }
  }

  /** The printed text of a value is JSON text: read as such, it gives the value with the keys of every
      object in ascending order, and there is nothing left. */
  lemma PrintIsJsonText(v: Json)
    requires WellFormed(v)
    ensures var r := ReadValue(Print(v)); r.Got? && r.rest == [] && Same(v, r.value) && InKeyOrder(r.value)
  {
    ValueBack(v, []);
    assert Print(v) + [] == Print(v);
  }

  // ---------------------------------------------------------------- how strings are quoted

  /** The escapes of a single unit are those of `JSON.stringify`: six two-character ones, four lower-case
      hexadecimal digits for the other control characters and for a lone surrogate, and none else. */
  lemma UnitQuoted(u: Unit)
    ensures QuotedBody([u]) ==
            if u == 0x22 then [0x5C, 0x22]
            else if u == 0x5C then [0x5C, 0x5C]
            else if u == 8 then [0x5C, 0x62]
            else if u == 9 then [0x5C, 0x74]
            else if u == 10 then [0x5C, 0x6E]
            else if u == 12 then [0x5C, 0x66]
            else if u == 13 then [0x5C, 0x72]
            else if u < 0x20 || 0xD800 <= u < 0xE000 then [0x5C, 0x75] + Hex4(u)
            else [u]
  {
    assert [u][1..] == [];
  }

  lemma LowerCaseHex(u: Unit)
    ensures forall k :: 0 <= k < 4 ==> IsDigit(Hex4(u)[k]) || 0x61 <= Hex4(u)[k] <= 0x66
    ensures ReadHex4(Hex4(u)) == Got(u, [])
  {
    Hex4Back(u);
  }

  /** A surrogate pair stands for itself. */
  lemma PairQuoted(high: Unit, low: Unit)
    requires HighSurrogate(high) && LowSurrogate(low)
    ensures QuotedBody([high, low]) == [high, low]
  {
    assert [high, low][2..] == [] && [high, low][..2] == [high, low];
  }

  lemma QuotedStep(t: Text)
    requires t != []
    ensures QuotedBody(t) == Token(t) + QuotedBody(t[Take(t)..])
  {
  }

  lemma FirstToken(a: Text, b: Text)
    requires a != [] && (b == [] || !(HighSurrogate(a[|a|-1]) && LowSurrogate(b[0])))
    ensures Take(a + b) == Take(a) && Token(a + b) == Token(a) && (a + b)[Take(a)..] == a[Take(a)..] + b
  {
    var t := a + b;
    assert t[0] == a[0];
    if |a| >= 2 { assert t[1] == a[1] && t[..2] == a[..2]; } else if b != [] { assert t[1] == b[0]; }
  }

  lemma PartsAssociate(x: Text, y: Text, z: Text)
    ensures x + (y + z) == x + y + z
  {
  }

  /** Texts are quoted part by part, wherever no pair is cut. */
  lemma {:induction false} QuotedByParts(a: Text, b: Text)
    requires a == [] || b == [] || !(HighSurrogate(a[|a|-1]) && LowSurrogate(b[0]))
    ensures QuotedBody(a + b) == QuotedBody(a) + QuotedBody(b)
    decreases |a|
  {
    if a == [] {
      assert a + b == b;
    } else {
      var rest := a[Take(a)..];
      assert rest != [] ==> rest[|rest|-1] == a[|a|-1];
      QuotedByParts(rest, b);
      FirstToken(a, b);
      calc {
        QuotedBody(a + b);
      == { QuotedStep(a + b); }
        Token(a) + QuotedBody(rest + b);
      ==
        Token(a) + (QuotedBody(rest) + QuotedBody(b));
      == { PartsAssociate(Token(a), QuotedBody(rest), QuotedBody(b)); }
        Token(a) + QuotedBody(rest) + QuotedBody(b);
      == { QuotedStep(a); }
        QuotedBody(a) + QuotedBody(b);
      }
    }
  }
}
